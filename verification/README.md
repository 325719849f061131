# A verified model of the DNS64 forwarder

The forwarder answers DNS queries for IPv6-only clients. It resolves through a pool of
upstreams with a serve-stale cache, and where a name has no AAAA it synthesizes one: from the
IPv6 of the CDN that hosts the name, or by embedding an A address into a NAT64 prefix. This
project models its logic in Dafny and proves what holds of it on all inputs and in all runs.

The parts, and the files they are in:

- **The pool as a concurrent protocol.** `Pool` is a step machine: any number of client and
  refresh tasks over a shared cache, refresh slots and single-flight channels. Every lock
  region, upstream reply, cache write, timer and broadcast is one step; interleaving, upstream
  results, evictions and the clock are arbitrary. `Flights`, `Refreshes`, `Provenance`,
  `PoolCounts` and `Progress` prove invariants of every run, `Scenarios` shows runs that reach
  what they leave possible. `Reconnect` does the same for one upstream's connection cell, which
  is also a class; `Cache` is the cache as a class with its lifetime arithmetic.
- **The DNS64 decision.** `Decision` reads upstream answers, `Providers` holds the
  synthesizers, `Chain` the first-match interpreter of their plans, `ProviderLaws` and `ChainLaws`
  what they recognise and guarantee, `Handler` the request handler as a class whose methods are tied to a verdict
  relation, `HandlerLaws` what follows end to end, `Metrics` and `Accounts` the counters.
  `EndToEnd` puts the handler over a run of the pool: lifetimes from upstream through the cache
  into the records sent, and verdicts on cached answers.
  `Addresses` and `Bits` are the address arithmetic, `Rewrites` and `ObjectStores` the
  host-name rewrites, `ObjectNames` their answers in closed form, `Dns` and `Text` names and their text form.
- **Block lists.** `Blocklist` is parsing, merging and matching, `ListLines` what exactly each
  line says; `Chunked` is the chunked body decoder, `ChunkLaws` what exactly it accepts.
- **Dates.** `Calendar` is the day-number conversion.

Code with loops and updated variables is modelled by methods, each tied to a function or
relation that the lemmas are about; pure code by functions. Times are nanoseconds on one
clock. Address arithmetic is on unbounded integers with the 32 and 128 bit bounds in the types.

## What the code does that its documentation does not say

Each of these is stated by the lemmas named with it: the exact condition first, then an input
or a run that meets it.

- A leader that dies while it resolves leaves its flight open for good. The comment in
  `src/upstream.rs` (lines 551-557) expects followers to see the channel close, but the map's
  own clone of the sender (lines 544-546) keeps it open: waiting clients stay stuck and later
  misses of the question join them. Nobody else is ever stuck, and every cacheable question can
  come to this. (`Flights.AbandonedFlightIsForever`, `Progress.OnlyTheStrandedAreStuck`,
  `Scenarios.AbandonedReachable`)
- The CD bit is not part of the cache key: with the cache on, exactly the one-question queries
  with DNSSEC-OK clear can be answered from a resolution that was asked with the other CD bit. (`Scenarios.CdCrossesByKey`,
  `Scenarios.HitAcrossCd`)
- A positive answer that is only a CNAME chain loses its SOA in the cache, so providers that
  match on the SOA stop recognising it; an NXDOMAIN that carries AAAA is relayed as native the
  first time and as NXDOMAIN from the cache. (`Cache.CacheKeepsDecision`,
  `Cache.CachedSignalsAreGone`, `Cache.CachedNativeIsNxdomain`)
- The S3 rewrite keeps a bucket of any number of labels in some endpoint forms only. Behind a
  service keyword in a place of its own it drops the label next to the keyword of a bucket of
  two or more; behind a global, dashed or accelerated service it doubles the last label of a
  bucket of exactly two; the dashed website form doubles likewise, then drops the label next to it.
  (`ObjectStores.S3NameKeepsBucket`, `ObjectStores.RegionalLabelLost`,
  `ObjectStores.GlobalBucketDoubled`)
- The S3 rewrite takes its own output again exactly when the region slot of the name it was
  given already reads `dualstack`, under any TLD but two of its own keywords, for which the
  lemma has the condition too. (`ObjectStores.S3OwnAnsweredName`, `ObjectStores.OwnNameTaken`)
- The OSS rewrite sends a bucket that is no listed region to the default one exactly when it has
  at most one hyphen and no leading `oss` piece. A leading `oss` is doubled; further pieces stay
  behind the default region, which makes a listed region only of the piece `finance`.
  (`ObjectStores.OssDefaultRegion`, `ObjectStores.OssRegionListed`, `ObjectStores.OssMisdirected`)
- The Akamai rewrite never leaves its own output alone. (`Rewrites.AkamaiNeverIdempotent`,
  `Rewrites.AkamaiTwice`)
- A listed domain with an empty piece is accepted and counted but can never match.
  (`Blocklist.BareTextAccepted`, `Blocklist.LeadingDotAccepted`)
- A chunk extension that is not UTF-8, which the grammar permits inside quotes, makes a
  conforming body fail. (`Chunked.DecodeEncoded`, `Chunked.QuotedByteRefused`)

The code departs from RFC 6147 in two places, and the model follows the code: an upstream error
is relayed, not treated as an empty answer (section 5.1.2), and the TTL of an embedded address
does not take the SOA into account (section 5.1.7).

## Model

| member | source | states |
|---|---|---|
| Flights.OneFlightPerQuestion | src/upstream.rs:528-567 | in every interleaving a question has at most one open flight |
| Flights.FollowerGetsLeadersAnswer | src/upstream.rs:551-557 | a follower's channel never lags or closes, so the own-resolution branch is dead; it can receive exactly once its leader has answered, and receives that answer |
| Flights.CoalescedAnswersAgree | src/upstream.rs:558-565 | every client answered on a miss has the answer the flight's leader gave to the same question |
| Flights.AbandonedFlightIsForever | src/upstream.rs:543-548 | once a leader is gone its flight stays, its followers can never receive, and every later miss joins it |
| Scenarios.AbandonedReachable | src/upstream.rs:543-567 | every cacheable query can come to lead a flight that is abandoned |
| Flights.StepKeepsFlights | src/upstream.rs:528-567 | every step keeps the single-flight invariant |
| Refreshes.SlotIsOneLiveRefresh | src/upstream.rs:388-411 | a question is in flight exactly when one live refresh task works on it |
| Refreshes.AtMostTwoUpstream | src/upstream.rs:528-567 | at most two upstream resolutions of a cacheable question run at once |
| Refreshes.FreedByOwner | src/upstream.rs:400-411 | only the owning refresh frees a slot, and only when its resolution is over |
| Refreshes.FreedAfterItsWrite | src/upstream.rs:648-662 | a slot is freed only after the refresh's cache write, or when every upstream failed |
| Refreshes.WrittenFirst | src/upstream.rs:589-603 | a cacheable resolution offers its answer to the cache before it returns it |
| Refreshes.StaleClaimGoesOn | src/upstream.rs:611-621 | a stale lookup either answers at once or waits on a live refresh of its question under the timer |
| Provenance.RepliesAccountedFor | src/upstream.rs:474-521 | in every run each reply's status is true: uncached and miss replies are upstream answers to this question, hits and stale replies are never empty and come from an upstream-derived entry or the awaited refresh |
| Provenance.CacheIsUpstreams | src/upstream.rs:589-603 | every cache entry is sound, derived from an upstream answer to the same question and not from the future, so rebuilding never finds it empty |
| Provenance.HitsOutliveNothing | src/upstream.rs:846-863 | in every run a hit's records come from one upstream answer and no TTL outlives the upstream record, counted from the fetch |
| Provenance.HitsKeepTheBranch | src/upstream.rs:687-701 | in every run a hit is on the DNS64 branch of the upstream answer its entry was stored for, unless that was an NXDOMAIN with AAAA |
| Provenance.StaleDeliveredInTime | src/upstream.rs:611-637 | in timely runs a stale lookup is answered within 1.8 s, and a stale answer is delivered no later than deadline + window + 1.8 s |
| Provenance.WaitsAtMostTheTimer | src/upstream.rs:622-622 | in timely runs a waiting client is never past its deadline |
| Provenance.StepKeepsProvenance | src/upstream.rs:474-637 | every step keeps the provenance invariant |
| Provenance.PlainCaching | src/upstream.rs:439-452 | with serve-stale off no reply of any run is stale |
| Provenance.ConfiguredWindow | src/upstream.rs:439-452 | with serve-stale on an expired entry is served for exactly a day more, otherwise not at all; the cache is on exactly for a nonzero size |
| PoolCounts.LookupsAddUp | src/upstream.rs:482-521 | in every run lookups = hits + misses + stale lookups, prefetches are at most hits, stale servings at most stale lookups, negative hits at most hits plus stale lookups |
| PoolCounts.FailuresAddUp | src/upstream.rs:578-584 | in every run the failure counter is the number of resolutions that found every upstream failing |
| Scenarios.CdCrossesByKey | src/upstream.rs:664-682 | a query can be answered from a resolution asked with the other CD bit exactly when the cache is on, DNSSEC-OK is clear and it has one question |
| Scenarios.HitAcrossCd | src/upstream.rs:474-521 | one CD bit fills the cache and the same question with the other bit is a hit on it |
| Scenarios.UncachedKeepsCd | src/upstream.rs:528-531 | whoever is answered when upstream only ever answered the other CD bit asked such a query |
| Scenarios.BypassesTheCache | src/upstream.rs:664-682 | in every run a reply to a query with DNSSEC-OK set, or without exactly one question, is uncached and is what upstream answered that very client, whole |
| Scenarios.UsesTheCache | src/upstream.rs:664-682 | and with the cache on every other query is never uncached, and its key is its one question |
| PoolCounts.LookupsGoByAge | src/upstream.rs:482-510 | in every run a lookup is a hit, a prefetching hit, stale or a miss by the entry's age alone, and is counted as that |
| Progress.OnlyTheStrandedAreStuck | src/upstream.rs:528-637 | in every run a task that is not over, or the task it waits for, can take a step, exactly unless it follows a flight whose leader is gone |
| Pool.Inner.TryClaimRefresh | src/upstream.rs:388-397 | claims exactly when the question was not in flight, and marks it |
| Pool.Inner.ReleaseRefresh | src/upstream.rs:406-410 | frees exactly that question |
| Pool.Inner.JoinOrLead | src/upstream.rs:539-549 | follows the open flight's opener, or opens one |
| Pool.Inner.CloseFlight | src/upstream.rs:561-561 | removes exactly that flight |
| Reconnect.Upstream.Acquire | src/upstream.rs:284-293 | the live connection, or a freshly numbered one if the dial succeeds |
| Reconnect.Upstream.Invalidate | src/upstream.rs:298-303 | drops the connection only if it still has that generation |
| Reconnect.Upstream.Resolve | src/upstream.rs:306-321 | the whole outcome by the network: which generations are sent on, one retry on a freshly dialed one exactly when the first send fails and the dial succeeds, and what stays in the cell |
| Reconnect.ResolveSet | src/upstream.rs:350-364 | the first answer that is not SERVFAIL, or none when all were passed over |
| Reconnect.DialedOncePerFailure | src/upstream.rs:284-303 | generations are dialed 1, 2, 3, ... once each, and only over one that failed |
| Reconnect.SecondAttemptIsNewer | src/upstream.rs:306-321 | in every run a resolution sends at most twice and the second generation is larger |
| Reconnect.FailsOnlyTwice | src/upstream.rs:306-321 | in every run a resolution fails only after sends on two connections failed, or because its own dial did |
| Reconnect.OnlyItsOwnFailureDrops | src/upstream.rs:295-303 | a live connection is dropped only by a failure of that very generation |
| Reconnect.OneDialAtATime | src/upstream.rs:284-293 | at most one dial is in progress, over an empty cell |
| Reconnect.NobodyStuck | src/upstream.rs:284-321 | in every run a resolution that is not over can go on, or the dial it waits for can end, and it can be cancelled |
| Cache.StaleCache.Insert | src/upstream.rs:784-803 | keeps the positive entry for the least TTL capped at a day, or nothing for TTL 0 |
| Cache.StaleCache.InsertNegative | src/upstream.rs:809-840 | keeps the negative entry for min(SOA TTL, MINIMUM) capped at an hour |
| Cache.StaleCache.Keep | src/upstream.rs:589-603 | what a response does to the cache, as a function of old contents |
| Cache.StaleCache.Get | src/upstream.rs:846-865 | the lookup's phase, and never an entry that cannot be rebuilt |
| Cache.StoredIsSound | src/upstream.rs:784-840 | a stored entry has exactly one nonempty section and lives at least a second and at most its cap |
| Cache.PositiveKept | src/upstream.rs:784-803 | a NOERROR answer with records is stored, whole, exactly when every TTL is at least 1, and is fresh through second T exactly when T is at most a day and at most every TTL |
| Cache.NegativeKept | src/upstream.rs:592-602 | NXDOMAIN and NODATA alike are stored exactly with an SOA whose TTL and MINIMUM are at least 1, and are fresh through second T exactly when T is at most an hour and at most each of them |
| Cache.OthersNotKept | src/upstream.rs:589-603 | no other RCODE is stored |
| Cache.StampedExactly | src/upstream.rs:846-863 | the TTL of a fresh hit is exactly the whole seconds left: still fresh that much later, no longer one second after |
| Cache.StaleStamped | src/upstream.rs:861-863 | a stale one is 30 on every record, data and owners untouched |
| Cache.FreshTtlSound | src/upstream.rs:846-863 | every TTL stamped on a fresh hit runs out no later than the upstream record's and, for negatives, the SOA MINIMUM (section 5 of RFC 2308) |
| Cache.ServedShape | src/upstream.rs:687-701 | what serving from the cache does to a response |
| Cache.CacheKeepsBranch | src/handler.rs:104-162 | a cached answer keeps the DNS64 branch and the CNAME and A data exactly when it was not an NXDOMAIN with AAAA |
| Cache.CacheKeepsDecision | src/handler.rs:104-185 | and keeps the authority signals too exactly when no SOA sat beside a CNAME-only answer |
| Cache.CachedNativeIsNxdomain | src/upstream.rs:592-602 | an NXDOMAIN with AAAA is stored, and turns from native to NXDOMAIN |
| Cache.CachedSignalsAreGone | src/upstream.rs:592-593 | a CNAME-only answer with an SOA is stored, and loses its signals |
| Decision.ExtractAuthority | src/handler.rs:377-387 | the first SOA's mailbox and owner |
| Decision.SignalsByIndex | src/handler.rs:377-387 | mailbox and owner are those of the SOA record no SOA stands before, and none without one |
| Decision.TargetsByIndex | src/handler.rs:167-174 | the targets of the CNAME records, all of them, in order |
| Decision.LookupAByIndex | src/handler.rs:152-165 | the A records of a NOERROR answer with their TTLs, in order, and nothing of any other |
| Decision.DecidedByAnswer | src/handler.rs:104-162 | the branch by RCODE and record types |
| Handler.Handler.HandleRequest | src/handler.rs:255-372 | every request gets the verdict it deserves, that verdict's reply, pool calls and counter bumps |
| Handler.Handler.HandleDns64 | src/handler.rs:77-219 | the DNS64 verdict on the pool's answers, with its reply, calls and bumps |
| Handler.Handler.AnswerNodata | src/handler.rs:150-218 | NODATA is synthesized by the chain or relayed empty |
| Handler.Handler.Dispatch | src/handler.rs:276-354 | refusing comes before blocking, blocking before any pool call |
| Handler.Handler.PassThrough | src/handler.rs:324-354 | the exact query is forwarded once and the answer relayed, or SERVFAIL |
| HandlerLaws.VerdictByRequest | src/handler.rs:255-356 | on the request's own fields: exactly the AAAA, class IN, CD-clear questions of admitted clients reach synthesis; every other admitted question is passed through; refused and blocked by client and name |
| HandlerLaws.VerdictByAnswer | src/handler.rs:77-219 | relayed exactly on an RCODE other than NOERROR or an AAAA record, failed exactly without an answer, and otherwise what the chain says |
| HandlerLaws.ContextByRecords | src/handler.rs:152-181 | what synthesis works from, by index over the records of both answers |
| HandlerLaws.TurnedAway | src/handler.rs:262-318 | NOTIMP, FORMERR, REFUSED and NXDOMAIN for what is turned away, without records or AD |
| HandlerLaws.AskedOfThePool | src/handler.rs:391-409 | nothing is asked for what is turned away; the client's question and the A question carry its own DO and CD bits; reference lookups only behind a NODATA answer |
| HandlerLaws.SynthesisMasksNothing | src/handler.rs:104-219 | only NOERROR answers without AAAA to AAAA, class IN questions with CD clear are replaced, by unauthenticated servable AAAA at the queried name; everything else is relayed section by section |
| HandlerLaws.TranslatorAnswers | src/handler.rs:187-199 | with an accepted translator, NODATA with an eligible A is always answered |
| HandlerLaws.CachedAaaaSameVerdict | src/handler.rs:104-219 | a cached AAAA answer with the same decision gives the same verdict, synthesized records included |
| HandlerLaws.CacheKeepsVerdict | src/upstream.rs:687-701 | the cache keeps the verdict for every answer outside the two named families |
| Accounts.CountersAddUp | src/metrics.rs:184-209 | over every set of completed requests, in any interleaving: RCODEs sum to requests, query types split into DNS64, passthrough, blocked and refused, nodata = synthesized + empty, hits sum to synthesized |
| Accounts.EveryCounterCounts | src/metrics.rs:137-209 | over every set of completed requests each counter is the number of requests of its kind: by verdict, by the code sent, by the type asked, by the synthesizer that answered |
| Accounts.RequestAccounts | src/handler.rs:255-356 | each request's bumps balance by themselves |
| Accounts.SharedIds | src/metrics.rs:125-131 | the counters of an accepted chain hold exactly its ids, so no winner goes uncounted |
| Accounts.ServedOneMore | src/handler.rs:255-356 | the handler's own history is one of completed requests |
| Metrics.Metrics.RecordRcode | src/metrics.rs:189-201 | one bump of the RCODE's bucket |
| Metrics.Metrics.RecordQtype | src/metrics.rs:184-186 | one bump of the type's bucket |
| Metrics.Metrics.SynthHit | src/metrics.rs:205-209 | one bump of the id's first place, none for an id that is not enabled |
| Metrics.Metrics.ReadTotals | src/metrics.rs:214-247 | a family's counters sum to its bumps |
| Chain.ValidateOrder | src/synth/mod.rs:389-410 | accepts exactly the lists whose first specific provider is before the first generic one |
| ChainLaws.OrderedExactly | src/synth/mod.rs:383-398 | the accepted orders: a listed specific provider stands before every `cloudflare` |
| Chain.Build | src/synth/mod.rs:148-185 | accepts exactly ordered lists of known ids, one synthesizer per id in order, fallback only with a translator |
| Chain.RunPlan | src/synth/mod.rs:240-282 | one plan's records and the reference lookups made for them |
| Chain.Synthesize | src/synth/mod.rs:190-236 | the records of the least-index synthesizer that yields any, with the fallback behind; nothing exactly when none yields |
| Chain.PlanRecordsSound | src/synth/mod.rs:247-281 | every record is at the queried name, global unicast, within the cap and every TTL it derives from |
| ChainLaws.ResultsAreServable | src/synth/mod.rs:268-281 | a result is nonempty and every record servable, fallback included |
| ChainLaws.WinnersOutliveNothing | src/synth/mod.rs:247-266 | the winner's TTLs are at most the cap and every TTL they derive from |
| ChainLaws.RecordsInOrder | src/synth/mod.rs:268-281 | a plan's records are the global unicast addresses it combines, all of them, in order, at the queried name |
| ChainLaws.TtlAttained | src/synth/mod.rs:247-281 | a record's TTL is the cap, or a TTL looked up, or an A record's when none was, or 300 when there is neither |
| ChainLaws.ResolvedByIndex | src/synth/mod.rs:303-317 | a reference lookup yields the AAAA records of a NOERROR answer, in order, and nothing of any other |
| ChainLaws.OneLookupEach | src/synth/cdn.rs:219-290 | no synthesizer looks up more than one name |
| ChainLaws.NothingAppended | src/synth/mod.rs:168-227 | nothing is appended unless the fallback is asked for and a translator is in the chain, nor to the translator's own records |
| EndToEnd.RepliesBacked | src/upstream.rs:846-863 | in every run no TTL of a hit, counted from its lookup, outlives the upstream answer its own entry was stored for, counted from that entry's fetch; a miss hands on upstream's answer unchanged |
| EndToEnd.BelowReply | src/upstream.rs:474-521 | in every run a TTL kept below a reply's has that reply's lifetime: for a hit it ends within the entry's upstream answer, otherwise it is at most upstream's TTLs counted from delivery, or the serve-stale TTL |
| EndToEnd.SynthesizedWithinUpstream | src/synth/mod.rs:247-266 | in every run a synthesized TTL has the lifetime of the reply to each reference's own AAAA question |
| EndToEnd.EmbeddedWithinUpstream | src/synth/mod.rs:247-253 | and where no reference answered, of the reply that gave the A records |
| EndToEnd.SentWithinUpstream | src/handler.rs:77-219 | a request served over a run of the pool: every record sent, the appended one included, has the lifetime of the clients' replies it derives from |
| EndToEnd.HitsKeepTheVerdict | src/handler.rs:77-219 | a request whose AAAA side was a hit gets the verdict the upstream answer behind it deserves, records included, where the cache keeps the decision |
| ChainLaws.Nat64Yields | src/synth/nat64.rs:79-91 | with an accepted prefix NAT64 yields exactly the eligible addresses embedded in order: the filter drops none |
| ChainLaws.TranslatorNeverFails | src/synth/nat64.rs:79-91 | a chain with `nat64` and an eligible A always answers, however reference lookups went |
| ChainLaws.TranslatorAlone | src/synth/nat64.rs:52-91 | a chain of `nat64` alone answers exactly the eligible A addresses in order |
| ChainLaws.FallbackIsOneEmbedding | src/synth/mod.rs:217-227 | a result won by another synthesizer ends in exactly one embedding, of the first eligible A |
| ChainLaws.SpecificBeforeGeneric | src/synth/mod.rs:383-398 | `cloudflare` never answers a context `shopify` or `webflow` of the chain recognises, duplicates in the list included |
| ChainLaws.ConstantYields | src/synth/cdn.rs:219-231 | a constant provider yields whenever it matches |
| Providers.FuseFits | src/synth/cdn.rs:633-650 | a Fastly host id always fits the last segment, keeps the borrowed prefix and tells ids apart |
| Providers.DigitsAsHexInjective | src/synth/cdn.rs:641-650 | decimal digits read as hexadecimal keep numbers apart |
| ProviderLaws.FusedDigits | src/synth/cdn.rs:633-650 | the served last segment spells the decimal digits of the address modulo 1024, or 256 for GitHub, behind the borrowed seven segments |
| ProviderLaws.FastlyByAddress | src/synth/cdn.rs:656-682 | the first address in Fastly's ranges, or else the first of all under Fastly's mailbox, is spelled behind the reference's prefixes |
| ProviderLaws.GithubByAddress | src/synth/cdn.rs:683-694 | the first GitHub address, only when neither applies |
| ProviderLaws.FastlyByName | src/synth/cdn.rs:696-712 | otherwise `dualstack.` before the first host under `fastly.net` or `fastlylb.net`, in any letter case, or nothing |
| ProviderLaws.EdgeExactly | src/synth/cdn.rs:719-760 | by the SOA zone and the first word of the deepest host name; the last octet spelled, 9 as 8 behind one prefix |
| ProviderLaws.CacheFlyExactly | src/synth/cdn.rs:855-888 | the first rewritten host, or else the last two octets of the addresses in its range, spelled |
| ProviderLaws.EmbeddersExactly | src/synth/cdn.rs:766-848 | Cloudflare and WordPress VIP match by address bounds and embed exactly the addresses in them, in order |
| ProviderLaws.ConstantExactly | src/synth/cdn.rs:207-234 | a constant provider matches exactly by host suffix or address block, and serves its address |
| ProviderLaws.BorrowExactly | src/synth/cdn.rs:175-264 | a borrowing one matches by mailbox, host suffix or block, and serves what its reference has, else the fallback |
| ProviderLaws.RewriterExactly | src/synth/cdn.rs:266-290 | a rewriting one serves what the first rewritten host has: CNAME targets in order, then the name |
| ProviderLaws.EligibleExactly | src/synth/nat64.rs:14-62 | every A address under `ipv4only.arpa` in any letter case, elsewhere exactly those outside the non-global networks, in order |
| Addresses.CidrIsInterval | src/synth/mod.rs:455-464 | the 32-bit mask test is membership in an aligned range |
| Bits.MaskIsShift | src/acl.rs:33-39 | the mask number is all ones shifted left and cut to the width |
| Addresses.ParseAcl | src/acl.rs:52-58 | every entry's network in order, or the first entry's error |
| Addresses.EntryErrors | src/acl.rs:80-110 | which entries parse, and which error the others get: the prefix is judged before the address |
| Addresses.EntryIsInterval | src/acl.rs:25-39 | an entry's 128-bit mask test is membership in its aligned range, lengths 0 and 128 included |
| Addresses.AllowsIsUnion | src/acl.rs:64-72 | an IPv6 client is allowed exactly when some configured range holds it or none is configured, an IPv4 client only then |
| Addresses.RoutableIsComplement | src/synth/nat64.rs:24-39 | the octet tests are exactly the complement of the listed networks |
| Addresses.GlobalUnicastRanges | src/synth/mod.rs:331-339 | the segment tests leave out exactly ::, ::1, fc00::/7, fe80::/10 and ff00::/8 |
| Addresses.EmbedOctets | src/synth/nat64.rs:42-46 | the octet copy is the arithmetic embedding |
| Addresses.EmbedFacts | src/synth/nat64.rs:42-46 | an embedding keeps the high 96 bits, gives the address back, and is servable for every accepted prefix (section 2.2 of RFC 6052) |
| Rewrites.AkamaiRewrite | src/synth/cdn.rs:294-307 | the in-place edit is the rewrite on label lists |
| Rewrites.AkamaiNeverIdempotent | src/synth/cdn.rs:294-307 | every name the rewrite answers it accepts again, and changes |
| Rewrites.AkamaiTwice | src/synth/cdn.rs:294-307 | `e1` becomes `dsce1` and then `dscdsce1` |
| Rewrites.AkamaiAnswers | src/synth/cdn.rs:294-307 | on names: the third label from the end gets `dsc`, or `ds` if it is `cj`, all else kept |
| Rewrites.AkamaiOnly | src/synth/cdn.rs:294-307 | exactly the names of three labels or more under the two Akamai zones are taken |
| Rewrites.AwsGlbRewrite | src/synth/cdn.rs:310-321 | the in-place edit is the rewrite on label lists |
| Rewrites.AwsGlbIdempotent | src/synth/cdn.rs:310-321 | idempotent on every name it accepts |
| Rewrites.AwsGlbAnswers | src/synth/cdn.rs:310-321 | on names: one `dualstack` before the service, put there unless the name has it, all else kept |
| Rewrites.AwsGlbOnly | src/synth/cdn.rs:310-321 | exactly the names that end in `awsglobalaccelerator.com` are taken |
| Rewrites.AzureRewrite | src/synth/cdn.rs:325-333 | the in-place edit is the rewrite on label lists |
| Rewrites.AzureIdempotent | src/synth/cdn.rs:325-333 | idempotent on every name it accepts |
| Rewrites.AzureAnswers | src/synth/cdn.rs:325-333 | on names: the fourth label from the end becomes `sip-v4andv6`, all else kept |
| Rewrites.AzureOnly | src/synth/cdn.rs:325-333 | exactly the names of four labels or more under `azurewebsites.windows.net` are taken |
| Rewrites.CacheflyLabels | src/synth/cdn.rs:336-359 | what the text surgery amounts to on labels |
| Rewrites.CacheflyNeverRepeats | src/synth/cdn.rs:336-367 | the rewrite never matches its own output |
| Rewrites.CacheflyAnswers | src/synth/cdn.rs:336-367 | on names: `rvip<digits>-dstack` in front, the middle kept but for `g-anycast1` |
| Rewrites.CacheflyOnly | src/synth/cdn.rs:336-367 | exactly the names of four labels or more under `cachefly.net` with a VIP label in front are taken |
| Rewrites.RewrittenLabels | src/synth/mod.rs:417-451 | a rewritten name has exactly the rewritten labels |
| Dns.LabelsAreLowered | src/synth/mod.rs:417-424 | splitting the printed name recovers its lower-cased labels |
| Dns.RejoinedLabels | src/synth/mod.rs:449-451 | re-joining dot-free labels gives them back exactly when none is empty |
| Dns.ParsePrinted | src/synth/mod.rs:443-451 | parsing undoes printing |
| Text.SplitJoin | src/synth/mod.rs:417-451 | splitting undoes joining of separator-free parts |
| Text.JoinSplit | src/synth/mod.rs:417-451 | joining undoes splitting |
| ObjectStores.S3Rewrite | src/synth/cdn.rs:370-453 | the splices are the rewrite by endpoint form, with no index out of bounds |
| ObjectStores.S3NameShape | src/synth/cdn.rs:370-453 | every answer has `amazonaws` second from the TLD and `dualstack` third or fourth, a re-attached `cn` aside |
| ObjectStores.S3OwnAnswer | src/synth/cdn.rs:370-453 | on every list it accepts, the rewrite refuses its own answer exactly unless the region slot read `dualstack` (a lost `cn` before a TLD `cn` aside) or a TLD `dualstack` hides the inserted label before a service |
| ObjectStores.S3OwnAnsweredName | src/synth/cdn.rs:370-453 | the same of names |
| ObjectStores.OwnNameTaken | src/synth/cdn.rs:370-453 | `b.s3.dualstack.amazonaws.com` is rewritten, and so is its answer |
| ObjectStores.S3KeepsBucket | src/synth/cdn.rs:400-452 | every accepted list becomes the dual-stack endpoint of its form and what that form carries of the bucket; the bucket is kept exactly under the condition of its form |
| ObjectStores.S3NameKeepsBucket | src/synth/cdn.rs:370-453 | the same of every name the rewrite answers |
| ObjectStores.RegionalKeepsBucket | src/synth/cdn.rs:419-420 | the regional form in closed shape: kept exactly for at most one label |
| ObjectStores.RegionalLabelLost | src/synth/cdn.rs:402-420 | `a.b.s3.eu-west-1` loses `b` |
| ObjectStores.GlobalBucketDoubled | src/synth/cdn.rs:402-438 | `a.b.s3` gets `a` twice |
| ObjectNames.RegionalAnswers | src/synth/cdn.rs:402-425 | the regional forms in closed shape: region, `dualstack`, service |
| ObjectNames.GlobalAnswers | src/synth/cdn.rs:402-438 | `s3` alone gets the default region |
| ObjectNames.AcceleratedAnswers | src/synth/cdn.rs:402-452 | transfer acceleration goes behind `dualstack` and loses a `cn` |
| ObjectNames.DashedAnswers | src/synth/cdn.rs:402-452 | `s3-x` and `s3-x-y` are kept under the default region, a piece `1` aside |
| ObjectNames.DashedSiteAnswers | src/synth/cdn.rs:402-452 | the dashed website form gets the default region |
| ObjectNames.DashedRegionAnswers | src/synth/cdn.rs:402-452 | `s3-<region>` of three pieces is that region's endpoint |
| ObjectNames.OthersRefused | src/synth/cdn.rs:370-400 | names outside `amazonaws` are refused |
| ObjectNames.DualStackRefused | src/synth/cdn.rs:370-400 | names that are dual-stack already are refused |
| ObjectNames.NoServiceRefused | src/synth/cdn.rs:402-440 | names without an S3 service in either of its places are refused |
| ObjectStores.OssRewrite | src/synth/cdn.rs:457-520 | the splices are the rewrite by endpoint form; the out-of-range and empty-region branches are unreachable |
| ObjectStores.OssNameShape | src/synth/cdn.rs:457-520 | every answer ends in `aliyuncs.com` |
| ObjectStores.OssFixedName | src/synth/cdn.rs:457-520 | a name under a known region and `oss.aliyuncs.com` is left as it is, lower-cased |
| ObjectStores.OssFixedPoint | src/synth/cdn.rs:457-520 | the same of the reversed label list |
| ObjectStores.OssDefaultRegion | src/synth/cdn.rs:482-519 | a bucket that is no listed region goes to the default one exactly when it has at most one hyphen and no leading `oss` piece |
| ObjectStores.OssRegionListed | src/synth/cdn.rs:500-519 | for every label, a leading `oss` aside: the region sent to is listed exactly when the label was, or has at most two pieces, or only `finance` behind them |
| ObjectStores.OssBucketForm | src/synth/cdn.rs:482-519 | what any label under `oss.aliyuncs.com` becomes, a leading `oss` doubled |
| ObjectStores.OssMisdirected | src/synth/cdn.rs:482-519 | an unlisted region, a listed one that is not the default, and a doubled `oss` |
| ObjectNames.OssOnly | src/synth/cdn.rs:457-475 | which lists are taken |
| ObjectNames.OssAlone | src/synth/cdn.rs:457-519 | the service alone gets the default region, under either domain |
| ObjectNames.OssDomain | src/synth/cdn.rs:457-519 | the older domain becomes the current one |
| ObjectNames.OssRegionService | src/synth/cdn.rs:457-519 | `oss-<region>` becomes that region under `oss` |
| ObjectNames.OssOtherService | src/synth/cdn.rs:457-519 | any other service label stays |
| ObjectStores.OracleRewrite | src/synth/cdn.rs:524-589 | the edits are the rewrite on label lists |
| ObjectStores.OracleIdempotent | src/synth/cdn.rs:524-589 | idempotent on every name it accepts |
| ObjectNames.OracleAnswers | src/synth/cdn.rs:524-589 | on names: namespace, service and region kept, one `ds` behind them, under the right suffix, for each of the four forms |
| ObjectNames.OracleOnly | src/synth/cdn.rs:524-589 | exactly the names of those forms are taken |
| Blocklist.Load | src/blocklist.rs:129-184 | the merged sets and the per-source tallies, failed sources left out |
| Blocklist.IsBlocked | src/blocklist.rs:83-108 | the walk decides: some label suffix is blocked and none allowed |
| Blocklist.OnlyLinesMatter | src/blocklist.rs:129-178 | the sets depend only on which lines the fetched sources hold, in any order |
| Blocklist.ListLineParses | src/blocklist.rs:225-308 | adblock, bare and hosts lines for a well-formed domain all parse to it |
| Blocklist.ListedDomainBlocksSubtree | src/blocklist.rs:83-108 | a listed domain blocks itself and everything below, in any case, exactly when no suffix is excepted |
| Blocklist.ExceptionFreesSubtree | src/blocklist.rs:271-277 | an exception frees its domain and everything below, whatever is listed |
| Blocklist.LiveEntry | src/blocklist.rs:225-239 | an entry can match some name exactly when it is lower case without empty pieces |
| Blocklist.BareTextAccepted | src/blocklist.rs:257-308 | a bare text of domain characters is accepted whatever its pieces, and can match exactly when none is empty |
| Blocklist.LeadingDotAccepted | src/blocklist.rs:257-308 | `.example.com` is accepted and matches nothing |
| ListLines.NormalizedExactly | src/blocklist.rs:225-239 | which texts name a domain, character for character, and which |
| ListLines.RuleExactly | src/blocklist.rs:245-254 | a rule names a domain exactly when, past a `||`, it is a domain text with nothing or a single `^` behind it |
| ListLines.LineExactly | src/blocklist.rs:257-308 | what each trimmed line adds to the blocked and the excepted domains: rules, hosts lines, bare names, and nothing else |
| ListLines.SkippedExactly | src/blocklist.rs:257-308 | which lines are counted as skipped |
| ListLines.OptionsSkipped | src/blocklist.rs:245-254 | a `||` or `@@` rule with `$` options is skipped, whatever its domain |
| ListLines.LoadedExactly | src/blocklist.rs:129-184 | a loaded set holds exactly the domains that the lines of fetched sources name |
| Chunked.Dechunk | src/blocklist.rs:478-500 | the loop terminates, decodes, and outputs no more than it read |
| Chunked.DecodeEncoded | src/blocklist.rs:478-519 | decoding undoes every conforming encoding (section 7.1 of RFC 9112) exactly when all extensions are UTF-8, else it fails |
| Chunked.QuotedByteRefused | src/blocklist.rs:483-487 | a conforming body with a quoted byte that is not UTF-8 fails |
| ChunkLaws.AcceptedExactly | src/blocklist.rs:478-500 | a body is accepted, with that output, exactly when it is chunks that are all there, each with its line end, and a last line of size 0 |
| ChunkLaws.RefusedExactly | src/blocklist.rs:478-500 | and refused with that error exactly when whole chunks are followed by that fault: no line end, no UTF-8, no size, too little data, no CRLF |
| ChunkLaws.SizeExactly | src/blocklist.rs:481-485 | which header lines announce which size: white space, perhaps a plus, hexadecimal digits, white space, and anything from a semicolon on |
| ChunkLaws.Utf8Exactly | src/blocklist.rs:482-482 | bytes decode exactly to the text whose encoding (section 3 of RFC 3629) they are |
| ChunkLaws.HexPlaces | src/blocklist.rs:485-485 | digits count by their places |
| Calendar.DaysOfCivil | src/web.rs:627-638 | for every integer the date is valid and converts back to it |
| Calendar.CivilOfDays | src/web.rs:627-638 | every valid date comes from its day number |
| Calendar.SuccessorIsNextDay | src/web.rs:627-638 | one more day is the calendar successor, across eras and negative numbers |
| Calendar.OnlyCalendar | src/web.rs:627-638 | no other function counts the calendar from the epoch |
| Calendar.YearOfEraCorrect | src/web.rs:631-631 | the correction formula finds the year of the era |
| Calendar.FmtUtcExact | src/web.rs:606-617 | a rendered timestamp is in range and gives back the second |

## Left out

- The cache library's eviction and expiry: any entry may vanish at any time.
- Panics, and cancellation other than at a client's await points; a refresh task is never cancelled.
- Sockets, TLS, timeouts of a single upstream query, the server loop and response write errors: replies are arbitrary values.
- Weak memory: every lock region and atomic update is one step.
- Provenance.StaleDeliveredInTime: assumes that timers fire when due and that a claim follows its lookup at once, since scheduling delay is not bounded in the code.
- Provenance.WaitsAtMostTheTimer: assumes the same.
- Reconnect.DialedOncePerFailure: does not model the 64-bit wrap-around of the generation counter.
- Metrics.Metrics.RecordRcode: does not model the 64-bit wrap-around of the counters.
- Reconnect.Upstream.Resolve: is run on its own; concurrent resolutions are the protocol in the same module.
- Handler.Handler.HandleRequest: takes the pool's answers as parameters; what follows when they are those of clients of a run is proved of its verdicts, and several requests at once are covered by the counters and by the run.
- DNS wire format, EDNS fields other than DNSSEC-OK, name escapes and length limits, header fields copied from the request.
- IP address text: a parameter for block lists, a classification for client networks. The text that providers format and parse back is modelled by the address it denotes.
- Splitting a list's text into lines, URL handling, redirects, HTTP headers and fetching through NAT64.
- The CloudFront range table is a parameter; the other tables are written out.
- The query log, logging, latency, and the tables' truth about the CDNs.
- The dashboard apart from dates, Prometheus and Zabbix rendering, configuration and command line parsing apart from the accepted NAT64 prefix.
