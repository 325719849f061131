/** The response cache: what is stored for an upstream response, what a lookup gives
    back, and that neither lies about lifetimes or changes the DNS64 decision. Times are
    nanoseconds on one monotonic clock. */
module Cache {
  import opened Text
  import opened Dns
  import opened Decision

  const SEC: nat := 1_000_000_000
  const MAX_TTL: nat := 86_400
  const NEG_MAX_TTL: nat := 3_600
  const STALE_SERVE_TTL: u32 := 30
  const STALE_MAX_WINDOW: nat := 86_400 * SEC

  datatype Entry = Entry(
    answers: seq<Record>,
    authority: seq<Record>,
    rcode: Rcode,
    fetchedAt: nat,
    validUntil: nat)

  /** An entry rendered back into the pieces of a response. */
  datatype Snapshot = Snapshot(rcode: Rcode, negative: bool, answers: seq<Record>, authority: seq<Record>)

  datatype Lookup = Fresh(snapshot: Snapshot, prefetch: bool) | Stale(snapshot: Snapshot)

  // ---------------------------------------------------------------- lifetimes

  /** Least element, 0 for none. */
  function Least(ttls: seq<nat>): (m: nat)
    ensures forall i :: 0 <= i < |ttls| ==> m <= ttls[i]
    ensures |ttls| > 0 ==> m in ttls
  {
    if |ttls| == 0 then 0
    else if |ttls| == 1 then ttls[0]
    else Min(ttls[0], Least(ttls[1..]))
  }

  function Ttls(records: seq<Record>): (r: seq<nat>)
    ensures |r| == |records| && forall i :: 0 <= i < |records| ==> r[i] == records[i].ttl
  {
    seq(|records|, i requires 0 <= i < |records| => records[i].ttl)
  }

  /** `min(SOA TTL, SOA MINIMUM)` of the SOA records among `records`. */
  function SoaTtls(records: seq<Record>): (r: seq<nat>)
    ensures forall i :: 0 <= i < |records| && records[i].data.SoaData? ==>
      Min(records[i].ttl, records[i].data.minimum) in r
  {
    if |records| == 0 then []
    else
      var rest := SoaTtls(records[1..]);
      assert forall i :: 1 <= i < |records| ==> records[i] == records[1..][i - 1];
      if records[0].data.SoaData? then [Min(records[0].ttl, records[0].data.minimum)] + rest else rest
  }

  function PositiveTtl(answers: seq<Record>): nat { Min(Least(Ttls(answers)), MAX_TTL) }

  function NegativeTtl(soa: seq<Record>): nat { Min(Least(SoaTtls(soa)), NEG_MAX_TTL) }

  function PositiveEntry(answers: seq<Record>, now: nat): Option<Entry> {
    var ttl := PositiveTtl(answers);
    if ttl == 0 then None else Some(Entry(answers, [], NoError, now, now + ttl * SEC))
  }

  function NegativeEntry(rcode: Rcode, soa: seq<Record>, now: nat): Option<Entry> {
    var ttl := NegativeTtl(soa);
    if ttl == 0 then None else Some(Entry([], soa, rcode, now, now + ttl * SEC))
  }

  function NegativeSoa(authority: seq<Record>): seq<Record> {
    if |authority| == 0 then []
    else (if authority[0].data.SoaData? then [authority[0]] else []) + NegativeSoa(authority[1..])
  }

  /** The entry an upstream response is stored as, if it is stored. */
  function EntryOf(resp: Response, now: nat): Option<Entry> {
    if resp.rcode == NoError && resp.answers != [] then PositiveEntry(resp.answers, now)
    else if resp.rcode == NXDomain || (resp.rcode == NoError && resp.answers == []) then
      var soa := NegativeSoa(resp.authority);
      if soa == [] then None else NegativeEntry(resp.rcode, soa, now)
    else None
  }

  // ---------------------------------------------------------------- lookups

  function Stamp(records: seq<Record>, ttl: u32): (r: seq<Record>)
    ensures |r| == |records| && forall i :: 0 <= i < |records| ==> r[i] == records[i].(ttl := ttl)
  {
    seq(|records|, i requires 0 <= i < |records| => records[i].(ttl := ttl))
  }

  function SnapshotOf(e: Entry, ttl: u32): Snapshot {
    Snapshot(e.rcode, e.answers == [], Stamp(e.answers, ttl), Stamp(e.authority, ttl))
  }

  /** `as u32` on a number of seconds. */
  function ToU32(n: nat): u32 { n % 0x1_0000_0000 }

  function LookupEntry(e: Entry, now: nat, window: nat): Option<Lookup> {
    if now <= e.validUntil then
      var remaining := e.validUntil - now;
      var total := if e.validUntil >= e.fetchedAt then e.validUntil - e.fetchedAt else 0;
      Some(Fresh(SnapshotOf(e, ToU32(remaining / SEC)), total != 0 && 10 * remaining <= total))
    else if now <= e.validUntil + window then Some(Stale(SnapshotOf(e, STALE_SERVE_TTL)))
    else None
  }

  /** A response rebuilt from a snapshot; `None` for an entry without any section. */
  function BuildCached(q: Question, s: Snapshot): Option<Response> {
    if s.answers == [] && s.authority == [] then None
    else Some(Response(s.rcode, false, [q], s.answers, s.authority, []))
  }

  // ---------------------------------------------------------------- the cache object

  /** Exactly one section, a lifetime of at least a second and at most a day, and for
      negatives an hour and SOA records only. */
  ghost predicate SoundEntry(e: Entry) {
    && (e.answers == [] <==> e.authority != [])
    && e.fetchedAt + SEC <= e.validUntil <= e.fetchedAt + MAX_TTL * SEC
    && (e.answers != [] ==> e.rcode == NoError)
    && (e.authority != [] ==>
      && (e.rcode == NoError || e.rcode == NXDomain)
      && e.validUntil <= e.fetchedAt + NEG_MAX_TTL * SEC
      && forall i :: 0 <= i < |e.authority| ==> e.authority[i].data.SoaData?)
  }

  class StaleCache {
    var entries: map<Question, Entry>
    const staleWindow: nat

    ghost predicate Valid()
      reads this
    {
      forall q :: q in entries ==> SoundEntry(entries[q])
    }

    constructor (staleWindow: nat)
      ensures Valid() && entries == map[] && this.staleWindow == staleWindow
    {
      entries := map[];
      this.staleWindow := staleWindow;
    }

    method Store(q: Question, e: Entry)
      requires Valid() && SoundEntry(e)
      modifies this
      ensures Valid() && entries == old(entries)[q := e]
    {
      entries := entries[q := e];
    }

    method Insert(q: Question, answers: seq<Record>, now: nat)
      requires Valid()
      modifies this
      ensures Valid()
      ensures entries == match PositiveEntry(answers, now) case None => old(entries) case Some(e) => old(entries)[q := e]
    {
      var ttl := Min(Least(Ttls(answers)), MAX_TTL);
      if ttl == 0 {
        return;
      }
      Store(q, Entry(answers, [], NoError, now, now + ttl * SEC));
    }

    /** The source's callers pass SOA records of an NXDOMAIN or NOERROR answer. */
    method InsertNegative(q: Question, rcode: Rcode, soa: seq<Record>, now: nat)
      requires Valid()
      requires rcode == NoError || rcode == NXDomain
      requires soa != [] && forall i :: 0 <= i < |soa| ==> soa[i].data.SoaData?
      modifies this
      ensures Valid()
      ensures entries == match NegativeEntry(rcode, soa, now) case None => old(entries) case Some(e) => old(entries)[q := e]
    {
      var ttl := Min(Least(SoaTtls(soa)), NEG_MAX_TTL);
      if ttl == 0 {
        return;
      }
      Store(q, Entry([], soa, rcode, now, now + ttl * SEC));
    }

    /** What resolving does with a response: keep it under its question if it may be kept. */
    method Keep(q: Question, resp: Response, now: nat)
      requires Valid()
      modifies this
      ensures Valid() && entries == Kept(old(entries), q, resp, now)
    {
      if resp.rcode == NoError && resp.answers != [] {
        Insert(q, resp.answers, now);
      } else if resp.rcode == NXDomain || (resp.rcode == NoError && resp.answers == []) {
        var soa := NegativeSoa(resp.authority);
        OnlySoa(resp.authority);
        if soa != [] {
          InsertNegative(q, resp.rcode, soa, now);
        }
      }
    }

    method Get(q: Question, now: nat) returns (r: Option<Lookup>)
      requires Valid()
      ensures r == if q in entries then LookupEntry(entries[q], now, staleWindow) else None
      ensures r.Some? ==> BuildCached(q, r.value.snapshot).Some?
    {
      if q !in entries {
        return None;
      }
      return LookupEntry(entries[q], now, staleWindow);
    }

    /** Capacity eviction or expiry inside the cache library: any entry may go. */
    method Evict(q: Question)
      requires Valid()
      modifies this
      ensures Valid() && entries == old(entries) - {q}
    {
      entries := entries - {q};
    }
  }

  /** The cache contents after a response is kept. */
  function Kept(entries: map<Question, Entry>, q: Question, resp: Response, now: nat): map<Question, Entry> {
    match EntryOf(resp, now)
    case None => entries
    case Some(e) => entries[q := e]
  }

  lemma {:induction false} OnlySoa(authority: seq<Record>)
    ensures forall i :: 0 <= i < |NegativeSoa(authority)| ==> NegativeSoa(authority)[i].data.SoaData?
    ensures forall i :: 0 <= i < |NegativeSoa(authority)| ==> NegativeSoa(authority)[i] in authority
  {
    if |authority| > 0 {
      OnlySoa(authority[1..]);
    }
  }

  lemma StoredIsSound(resp: Response, now: nat)
    ensures EntryOf(resp, now).Some? ==> SoundEntry(EntryOf(resp, now).value)
  {
    OnlySoa(resp.authority);
  }

  // ---------------------------------------------------------------- TTL soundness

  /** The seconds a fresh hit stamps at `now`. */
  function Remaining(e: Entry, now: nat): nat
    requires now <= e.validUntil
  {
    (e.validUntil - now) / SEC
  }

  /** A record with this TTL, fetched then, outlives an answer stamped `ttl` at `now`. */
  predicate Outlives(fetchedAt: nat, recordTtl: nat, now: nat, ttl: nat) {
    now + ttl * SEC <= fetchedAt + recordTtl * SEC
  }

  lemma RemainingSound(e: Entry, ttl: nat, now: nat)
    requires e.fetchedAt <= now <= e.validUntil && e.validUntil == e.fetchedAt + ttl * SEC && ttl <= MAX_TTL
    ensures Remaining(e, now) <= ttl && ToU32(Remaining(e, now)) == Remaining(e, now)
    ensures forall r: nat :: ttl <= r ==> Outlives(e.fetchedAt, r, now, Remaining(e, now))
  {
    FloorSeconds(e.validUntil - now);
  }

  lemma PositiveTtlSound(resp: Response, fetchedAt: nat, now: nat)
    requires resp.rcode == NoError && resp.answers != [] && EntryOf(resp, fetchedAt).Some?
    requires fetchedAt <= now <= EntryOf(resp, fetchedAt).value.validUntil
    ensures var t := Remaining(EntryOf(resp, fetchedAt).value, now);
      && t <= MAX_TTL && ToU32(t) == t
      && forall i :: 0 <= i < |resp.answers| ==> Outlives(fetchedAt, resp.answers[i].ttl, now, t)
  {
    RemainingSound(EntryOf(resp, fetchedAt).value, PositiveTtl(resp.answers), now);
    var ttls := Ttls(resp.answers);
    assert forall i :: 0 <= i < |ttls| ==> PositiveTtl(resp.answers) <= ttls[i];
    hide Least, Outlives, Remaining;
  }

  lemma NegativeTtlSound(resp: Response, fetchedAt: nat, now: nat)
    requires EntryOf(resp, fetchedAt).Some? && EntryOf(resp, fetchedAt).value.answers == []
    requires fetchedAt <= now <= EntryOf(resp, fetchedAt).value.validUntil
    ensures var e := EntryOf(resp, fetchedAt).value; var t := Remaining(e, now);
      && t <= NEG_MAX_TTL && ToU32(t) == t
      && forall i :: 0 <= i < |e.authority| ==>
        && e.authority[i] in resp.authority && e.authority[i].data.SoaData?
        && Outlives(fetchedAt, e.authority[i].ttl, now, t)
        && Outlives(fetchedAt, e.authority[i].data.minimum, now, t)
  {
    OnlySoa(resp.authority);
    var e := EntryOf(resp, fetchedAt).value;
    RemainingSound(e, NegativeTtl(e.authority), now);
    assert forall i :: 0 <= i < |e.authority| ==> e.authority[i] in resp.authority;
    hide Outlives, Remaining, NegativeSoa;
    forall i | 0 <= i < |e.authority|
      ensures NegativeTtl(e.authority) <= e.authority[i].ttl && NegativeTtl(e.authority) <= e.authority[i].data.minimum
    {
      assert Min(e.authority[i].ttl, e.authority[i].data.minimum) in SoaTtls(e.authority);
    }
  }

  /** A fresh hit never promises more than upstream did: every record it returns is one
      that was stored, stamped with a TTL within the caps that runs out no later than the
      upstream record would have, counted from the fetch, and no later than the SOA MINIMUM
      of a negative answer (section 5 of RFC 2308). */
  lemma FreshTtlSound(resp: Response, fetchedAt: nat, now: nat, window: nat)
    requires EntryOf(resp, fetchedAt).Some? && fetchedAt <= now <= EntryOf(resp, fetchedAt).value.validUntil
    ensures var e := EntryOf(resp, fetchedAt).value; var l := LookupEntry(e, now, window);
      && l.Some? && l.value.Fresh?
      && FreshStamps(resp, e, l.value.snapshot, now)
  {
    var e := EntryOf(resp, fetchedAt).value;
    if resp.rcode == NoError && resp.answers != [] {
      PositiveTtlSound(resp, fetchedAt, now);
    } else {
      NegativeTtlSound(resp, fetchedAt, now);
    }
    hide Outlives, NegativeSoa, NegativeTtl, PositiveTtl;
  }

  ghost predicate FreshStamps(resp: Response, e: Entry, s: Snapshot, now: nat) {
    && |s.answers| == |e.answers| && |s.authority| == |e.authority|
    && (forall i :: 0 <= i < |s.answers| ==>
      && e.answers[i] in resp.answers && s.answers[i].data == e.answers[i].data
      && s.answers[i].ttl <= MAX_TTL
      && Outlives(e.fetchedAt, e.answers[i].ttl, now, s.answers[i].ttl))
    && (forall i :: 0 <= i < |s.authority| ==>
      && e.authority[i] in resp.authority && s.authority[i].data == e.authority[i].data
      && e.authority[i].data.SoaData? && s.authority[i].ttl <= NEG_MAX_TTL
      && Outlives(e.fetchedAt, e.authority[i].ttl, now, s.authority[i].ttl)
      && Outlives(e.fetchedAt, e.authority[i].data.minimum, now, s.authority[i].ttl))
  }

  // ---------------------------------------------------------------- exact lifetimes

  ghost predicate FreshAt(e: Entry, now: nat, window: nat) {
    var l := LookupEntry(e, now, window); l.Some? && l.value.Fresh?
  }

  /** Fresh at second `T` after the fetch. */
  ghost predicate FreshFor(e: Entry, T: nat, window: nat) { FreshAt(e, e.fetchedAt + T * 1_000_000_000, window) }

  /** The entry is fresh exactly for the seconds in `alive`. */
  ghost predicate Lives(e: Entry, alive: nat -> bool) {
    forall T: nat, window: nat :: FreshFor(e, T, window) <==> alive(T)
  }

  lemma LivesUntil(e: Entry, life: nat)
    requires e.validUntil == e.fetchedAt + life * SEC
    ensures forall T: nat, window: nat :: FreshFor(e, T, window) <==> T <= life
  {
    forall T: nat, window: nat ensures FreshFor(e, T, window) <==> T <= life {
      hide SnapshotOf;
      if T <= life {
        assert T * 1_000_000_000 <= life * SEC;
      } else {
        assert T * 1_000_000_000 >= (life + 1) * SEC;
      }
    }
  }

  /** What a positive answer is kept as: it is kept exactly when every TTL of it is at least
      one, whole and from its fetch, and it is fresh through exactly the seconds no TTL of it,
      nor a day, is exceeded. */
  lemma PositiveKept(resp: Response, at: nat)
    requires resp.rcode == NoError && resp.answers != []
    ensures EntryOf(resp, at).Some? <==> forall i :: 0 <= i < |resp.answers| ==> resp.answers[i].ttl >= 1
    ensures EntryOf(resp, at).Some? ==> var e := EntryOf(resp, at).value;
      && e.answers == resp.answers && e.authority == [] && e.rcode == NoError && e.fetchedAt == at
      && Lives(e, (T: nat) => T <= 86_400 && forall i :: 0 <= i < |resp.answers| ==> T <= resp.answers[i].ttl)
  {
    var ttls := Ttls(resp.answers);
    var least := Least(ttls);
    var k :| 0 <= k < |ttls| && ttls[k] == least;
    assert resp.answers[k].ttl == least;
    hide Least, LookupEntry;
    if EntryOf(resp, at).Some? {
      LivesUntil(EntryOf(resp, at).value, Min(least, MAX_TTL));
    }
  }

  lemma {:induction false} SoaTtlsAre(records: seq<Record>)
    ensures forall m :: m in SoaTtls(records) ==> exists i :: 0 <= i < |records| && SoaTtl(records[i], m)
    ensures SoaTtls(records) == [] <==> forall i :: 0 <= i < |records| ==> !records[i].data.SoaData?
  {
    if |records| > 0 {
      SoaTtlsAre(records[1..]);
      assert forall i :: 1 <= i < |records| ==> records[i] == records[1..][i - 1];
      forall m | m in SoaTtls(records[1..]) ensures exists i :: 0 <= i < |records| && SoaTtl(records[i], m) {
        var i :| 0 <= i < |records[1..]| && SoaTtl(records[1..][i], m);
        assert SoaTtl(records[i + 1], m);
      }
      if records[0].data.SoaData? {
        assert SoaTtl(records[0], Min(records[0].ttl, records[0].data.minimum));
      }
    }
  }

  predicate SoaTtl(r: Record, m: nat) {
    r.data.SoaData? && (m == r.ttl || m == r.data.minimum) && m <= r.ttl && m <= r.data.minimum
  }

  predicate IsSoa(r: Record) { r.data.SoaData? }

  /** Every SOA record's TTL and MINIMUM reaches `T`. */
  predicate SoasReach(records: seq<Record>, T: nat) {
    forall i :: 0 <= i < |records| && records[i].data.SoaData? ==> T <= records[i].ttl && T <= records[i].data.minimum
  }

  lemma {:induction false} SoasAreFiltered(authority: seq<Record>)
    ensures NegativeSoa(authority) == Filter(IsSoa, authority)
    ensures forall T: nat :: SoasReach(NegativeSoa(authority), T) <==> SoasReach(authority, T)
  {
    if |authority| > 0 {
      SoasAreFiltered(authority[1..]);
      var rest := NegativeSoa(authority[1..]);
      forall T: nat ensures SoasReach(NegativeSoa(authority), T) <==> SoasReach(authority, T) {
        ReachSplits(authority, T);
        assert SoasReach(rest, T) <==> SoasReach(authority[1..], T);
        if authority[0].data.SoaData? {
          ReachSplits([authority[0]] + rest, T);
          assert ([authority[0]] + rest)[1..] == rest;
        } else {
          assert NegativeSoa(authority) == rest;
        }
      }
    }
  }

  lemma ReachSplits(records: seq<Record>, T: nat)
    requires |records| > 0
    ensures SoasReach(records, T) <==>
      (records[0].data.SoaData? ==> T <= records[0].ttl && T <= records[0].data.minimum) && SoasReach(records[1..], T)
  {
    assert forall i :: 1 <= i < |records| ==> records[i] == records[1..][i - 1];
  }

  /** What an NXDOMAIN, or a NOERROR answer without records, is kept as: it is kept exactly
      when it has an SOA and every SOA's TTL and MINIMUM is at least one, and it is fresh
      through exactly the seconds no SOA's TTL or MINIMUM, nor an hour, is exceeded. */
  lemma NegativeKept(resp: Response, at: nat)
    requires resp.rcode == NXDomain || (resp.rcode == NoError && resp.answers == [])
    ensures EntryOf(resp, at).Some? <==> Filter(IsSoa, resp.authority) != [] && SoasReach(resp.authority, 1)
    ensures EntryOf(resp, at).Some? ==> var e := EntryOf(resp, at).value;
      && e.answers == [] && e.authority == Filter(IsSoa, resp.authority) && e.rcode == resp.rcode && e.fetchedAt == at
      && Lives(e, (T: nat) => T <= 3_600 && SoasReach(resp.authority, T))
  {
    var soa := NegativeSoa(resp.authority);
    OnlySoa(resp.authority);
    SoasAreFiltered(resp.authority);
    if soa != [] {
      forall T: nat ensures T <= Least(SoaTtls(soa)) <==> SoasReach(soa, T) {
        LeastReach(soa, T);
      }
      hide Least, LookupEntry, SoaTtls, SoasReach, NegativeSoa;
      if EntryOf(resp, at).Some? {
        var e := EntryOf(resp, at).value;
        LivesUntil(e, NegativeTtl(soa));
      }
    }
  }

  /** The least of them bounds exactly the seconds they all reach. */
  lemma LeastReach(soa: seq<Record>, T: nat)
    requires soa != [] && forall i :: 0 <= i < |soa| ==> soa[i].data.SoaData?
    ensures T <= Least(SoaTtls(soa)) <==> SoasReach(soa, T)
  {
    hide Least, SoaTtls;
    var i := LeastAttained(soa);
    forall j | 0 <= j < |soa| ensures Least(SoaTtls(soa)) <= soa[j].ttl && Least(SoaTtls(soa)) <= soa[j].data.minimum {
      LeastBelow(soa, j);
    }
  }

  lemma LeastAttained(soa: seq<Record>) returns (i: nat)
    requires soa != [] && forall i :: 0 <= i < |soa| ==> soa[i].data.SoaData?
    ensures i < |soa| && SoaTtl(soa[i], Least(SoaTtls(soa)))
  {
    hide Least, SoaTtls, SoaTtl;
    SoaTtlsAre(soa);
    assert soa[0].data.SoaData?;
    assert Least(SoaTtls(soa)) in SoaTtls(soa);
    i :| 0 <= i < |soa| && SoaTtl(soa[i], Least(SoaTtls(soa)));
  }

  lemma LeastBelow(soa: seq<Record>, j: nat)
    requires j < |soa| && soa[j].data.SoaData?
    ensures Least(SoaTtls(soa)) <= soa[j].ttl && Least(SoaTtls(soa)) <= soa[j].data.minimum
  {
    var ttls, m := SoaTtls(soa), Min(soa[j].ttl, soa[j].data.minimum);
    assert m in ttls;
    var x :| 0 <= x < |ttls| && ttls[x] == m;
    assert Least(ttls) <= ttls[x];
  }

  /** Nothing else is kept. */
  lemma OthersNotKept(resp: Response, at: nat)
    requires resp.rcode != NoError && resp.rcode != NXDomain
    ensures EntryOf(resp, at) == None
  {
  }

  /** The TTL a fresh hit stamps on every record is exactly the whole seconds left: the entry
      is still fresh that much later, and a second more is too late. */
  lemma StampedExactly(e: Entry, now: nat, window: nat)
    requires SoundEntry(e) && e.fetchedAt <= now <= e.validUntil
    ensures LookupEntry(e, now, window).Some?
    ensures var s := LookupEntry(e, now, window).value.snapshot;
      && |s.answers| == |e.answers| && |s.authority| == |e.authority| && s.rcode == e.rcode
      && (forall i :: 0 <= i < |s.answers| ==> StampedFrom(e, s.answers[i], e.answers[i], now))
      && (forall i :: 0 <= i < |s.authority| ==> StampedFrom(e, s.authority[i], e.authority[i], now))
  {
    FloorSeconds(e.validUntil - now);
    var left := (e.validUntil - now) / SEC;
    assert ToU32(left) == left;
    assert now + left * SEC <= e.validUntil < now + (left + 1) * SEC;
  }

  /** Past the deadline every record is stamped with thirty seconds, its data untouched. */
  lemma StaleStamped(e: Entry, now: nat, window: nat)
    requires e.validUntil < now <= e.validUntil + window
    ensures LookupEntry(e, now, window).Some? && LookupEntry(e, now, window).value.Stale?
    ensures var s := LookupEntry(e, now, window).value.snapshot;
      && s.rcode == e.rcode && Restamped(s.answers, e.answers, 30) && Restamped(s.authority, e.authority, 30)
  {
  }

  ghost predicate Restamped(got: seq<Record>, stored: seq<Record>, ttl: u32) {
    |got| == |stored| && forall i :: 0 <= i < |got| ==> got[i].owner == stored[i].owner && got[i].data == stored[i].data && got[i].ttl == ttl
  }

  ghost predicate StampedFrom(e: Entry, r: Record, stored: Record, now: nat) {
    && r.owner == stored.owner && r.data == stored.data
    && FreshAt(e, now + r.ttl * 1_000_000_000, 0) && !FreshAt(e, now + (r.ttl + 1) * 1_000_000_000, 0)
  }

  lemma FloorSeconds(ns: nat)
    ensures 0 <= ns - ns / SEC * SEC < SEC
  {
  }

  /** A hit is fresh exactly up to the deadline, stale exactly through the window, and
      asks for a prefetch exactly in the last tenth of its life. */
  lemma LookupPhases(e: Entry, now: nat, window: nat)
    requires SoundEntry(e)
    ensures var l := LookupEntry(e, now, window);
      && (now <= e.validUntil <==> l.Some? && l.value.Fresh?)
      && (e.validUntil < now <= e.validUntil + window <==> l.Some? && l.value.Stale?)
      && (l.Some? && l.value.Fresh? ==>
        (l.value.prefetch <==> now >= e.validUntil - (e.validUntil - e.fetchedAt) / 10))
  {
  }

  // ---------------------------------------------------------------- DNS64 decision

  lemma StampedData(records: seq<Record>, ttl: u32)
    ensures CnameTargets(Stamp(records, ttl)) == CnameTargets(records)
    ensures Addresses4(Stamp(records, ttl)) == Addresses4(records)
    ensures SignalsOf(Stamp(records, ttl)) == SignalsOf(records)
    ensures HasAaaa(Stamp(records, ttl)) == HasAaaa(records)
  {
    if |records| > 0 {
      assert Stamp(records, ttl)[1..] == Stamp(records[1..], ttl);
      StampedData(records[1..], ttl);
    }
    var s := Stamp(records, ttl);
    assert forall i :: 0 <= i < |s| ==> s[i].data == records[i].data;
  }

  lemma {:induction false} FirstSoaKept(authority: seq<Record>)
    ensures SignalsOf(NegativeSoa(authority)) == SignalsOf(authority)
  {
    if |authority| > 0 {
      FirstSoaKept(authority[1..]);
      if authority[0].data.SoaData? {
        assert NegativeSoa(authority)[0] == authority[0];
      } else {
        assert NegativeSoa(authority) == NegativeSoa(authority[1..]);
      }
    }
  }

  /** The response a client is given from the entry stored for `resp`. */
  ghost predicate ServedFrom(q: Question, resp: Response, fetchedAt: nat, now: nat, window: nat, served: Response) {
    && EntryOf(resp, fetchedAt).Some?
    && var l := LookupEntry(EntryOf(resp, fetchedAt).value, now, window);
      && l.Some? && BuildCached(q, l.value.snapshot) == Some(served)
  }

  /** What serving from the cache does to a response, fresh or stale: the RCODE stays, a
      positive answer keeps its records and loses its authority section, a negative one
      keeps only its SOA records. */
  lemma ServedShape(q: Question, resp: Response, fetchedAt: nat, now: nat, window: nat, served: Response)
    requires ServedFrom(q, resp, fetchedAt, now, window, served)
    ensures served.rcode == resp.rcode && !served.authenticData && served.question == [q] && served.additionals == []
    ensures exists ttl: u32 ::
      if resp.rcode == NoError && resp.answers != [] then
        served.answers == Stamp(resp.answers, ttl) && served.authority == []
      else served.answers == [] && served.authority == Stamp(NegativeSoa(resp.authority), ttl)
  {
    var e := EntryOf(resp, fetchedAt).value;
    var s := LookupEntry(e, now, window).value.snapshot;
    var ttl := if now <= e.validUntil then ToU32((e.validUntil - now) / SEC) else STALE_SERVE_TTL;
    assert s == SnapshotOf(e, ttl);
    assert Stamp([], ttl) == [];
  }

  /** A cached answer leads the handler to the same branch with the same CNAME and A data
      exactly when the upstream answer was not an NXDOMAIN that carried AAAA records. */
  lemma CacheKeepsBranch(q: Question, resp: Response, fetchedAt: nat, now: nat, window: nat, served: Response)
    requires ServedFrom(q, resp, fetchedAt, now, window, served)
    ensures SameBranch(Decide(served), Decide(resp)) <==> !(resp.rcode == NXDomain && HasAaaa(resp.answers))
    ensures Addresses(LookupA(Some(served))) == Addresses(LookupA(Some(resp)))
  {
    ServedShape(q, resp, fetchedAt, now, window, served);
    var ttl: u32 :| if resp.rcode == NoError && resp.answers != [] then
        served.answers == Stamp(resp.answers, ttl) && served.authority == []
      else served.answers == [] && served.authority == Stamp(NegativeSoa(resp.authority), ttl);
    StampedData(resp.answers, ttl);
    assert !HasAaaa([]);
    assert Addresses(ARecords(served.answers)) == Addresses4(served.answers);
    assert Addresses(ARecords(resp.answers)) == Addresses4(resp.answers);
  }

  /** Same branch, same CNAME targets; authority signals aside. */
  ghost predicate SameBranch(a: Branch, b: Branch) {
    if a.Nodata? && b.Nodata? then a.targets == b.targets else a == b
  }

  function Addresses(a: seq<(V4, u32)>): (r: seq<V4>)
    ensures |r| == |a| && forall i :: 0 <= i < |a| ==> r[i] == a[i].0
  {
    seq(|a|, i requires 0 <= i < |a| => a[i].0)
  }

  /** The whole decision survives, authority signals included, exactly when in addition a
      NOERROR answer without AAAA had no SOA beside CNAMEs: those signals are dropped. */
  lemma CacheKeepsDecision(q: Question, resp: Response, fetchedAt: nat, now: nat, window: nat, served: Response)
    requires ServedFrom(q, resp, fetchedAt, now, window, served)
    ensures Decide(served) == Decide(resp) <==>
      if resp.rcode == NXDomain then !HasAaaa(resp.answers)
      else resp.answers == [] || HasAaaa(resp.answers) || SignalsOf(resp.authority) == NO_SIGNALS
  {
    CacheKeepsBranch(q, resp, fetchedAt, now, window, served);
    ServedShape(q, resp, fetchedAt, now, window, served);
    var ttl: u32 :| if resp.rcode == NoError && resp.answers != [] then
        served.answers == Stamp(resp.answers, ttl) && served.authority == []
      else served.answers == [] && served.authority == Stamp(NegativeSoa(resp.authority), ttl);
    StampedData(resp.answers, ttl);
    StampedData(NegativeSoa(resp.authority), ttl);
    FirstSoaKept(resp.authority);
    assert SignalsOf([]) == NO_SIGNALS;
  }

  const SOA_RECORD := Record([], 60, SoaData([], 60))

  /** A storable NXDOMAIN that carries AAAA, and a CNAME-only answer with an SOA beside it. */
  function NxdomainWithAaaa(q: Question): Response {
    Response(NXDomain, false, [q], [Record([], 60, AaaaData(2))], [SOA_RECORD], [])
  }

  function CnameWithSoa(q: Question): Response {
    Response(NoError, false, [q], [Record([], 60, CnameData([]))], [SOA_RECORD], [])
  }

  /** Both are cached, and change the decision when served from there: a native answer
      becomes an NXDOMAIN, */
  lemma CachedNativeIsNxdomain(q: Question, at: nat, window: nat)
    ensures var served := Response(NXDomain, false, [q], [], [SOA_RECORD], []);
      && ServedFrom(q, NxdomainWithAaaa(q), at, at, window, served)
      && Decide(NxdomainWithAaaa(q)) == Native && Decide(served) == NoSuchName
  {
    var resp := NxdomainWithAaaa(q);
    assert NegativeSoa(resp.authority) == [SOA_RECORD];
    assert SoaTtls([SOA_RECORD]) == [60];
    var e := Entry([], [SOA_RECORD], NXDomain, at, at + 60 * SEC);
    assert EntryOf(resp, at) == Some(e);
    assert Stamp([SOA_RECORD], 60) == [SOA_RECORD] && Stamp([], 60) == [];
    assert LookupEntry(e, at, window) == Some(Fresh(Snapshot(NXDomain, true, [], [SOA_RECORD]), false));
    assert resp.answers[0].data.AaaaData?;
  }

  /** and the SOA's signals are gone. */
  lemma CachedSignalsAreGone(q: Question, at: nat, window: nat)
    ensures var cname := Record([], 60, CnameData([])); var served := Response(NoError, false, [q], [cname], [], []);
      && ServedFrom(q, CnameWithSoa(q), at, at, window, served)
      && Decide(CnameWithSoa(q)) == Nodata([[]], Authority(Some([]), Some([]))) && Decide(served) == Nodata([[]], NO_SIGNALS)
  {
    var resp, cname := CnameWithSoa(q), Record([], 60, CnameData([]));
    var e := Entry([cname], [], NoError, at, at + 60 * SEC);
    assert Ttls([cname]) == [60];
    assert EntryOf(resp, at) == Some(e);
    assert Stamp([cname], 60) == [cname] && Stamp([], 60) == [];
    assert LookupEntry(e, at, window) == Some(Fresh(Snapshot(NoError, false, [cname], []), false));
    assert CnameTargets([cname]) == [[]];
    assert SignalsOf([]) == NO_SIGNALS;
  }
}
