# Verified model of the EUDI API management service

The service lets API clients mint presentation sessions at a verifier engine, poll them, and be told of results by
webhook. This project models the parts of it that keep state over whole runs and proves what they promise. To check it:
`dafny verify dfyconfig.toml` (Dafny 4.11).

There are four components. Each is modelled three times over: as classes that update their fields in the source's own
order, as functions on values that say what those methods compute, and as a protocol in which every store command, clock
reading, POST and registry read is one atomic step, interleaved arbitrarily. The methods are proved against the
functions, and the theorems are about all runs of the protocols. That the sequential code is among those runs is proved
for the consumer's cycle and all it consists of, apart from a failing ZREM (`Refinement.CycleIsARun`), for an
authentication (`AuthService.AuthenticateIsARun`), for a poll and a sweeper cycle (`SessionRoutes.PollIsARun`,
`SessionRoutes.SweepIsARun`), and for a mint and a template write with any registry changes between their reads
(`MintRoutes.MintIsARun`, `MintRoutes.TemplateIsARun`).

1. **Webhook delivery** (`Backoff`, `Handoff`, `Delivery`, `DeliveryHistory`, `DeliveryTheorems`, `DeliveryTiming`,
   `DeliveryLimits`, `Processing`, `Draining`, `Consumer`, `Refinement`, `Ordering`). Any number of consumer replicas
   share a list queue, a retry ZSET and expiring attempt counters. The history records Deliver calls, failures,
   acknowledgements and faults.
2. **The API-key boundary** (`Encoding`, `Strings`, `ApiKeys`, `KeyCache`, `AuthProtocol`, `AuthService`). The displayed
   key, base64 and base32 (RFC 4648 sections 3.2 and 4 to 6) and the PHC string are concrete codecs. The bounded cache is
   shown to be transparent under every interleaving of requests, registry changes and time.
3. **Sessions** (`Sessions`, `SessionProtocol`, `SessionTheorems`, `SessionExpiry`, `SessionRoutes`). Polls,
   cancellations, one-shot response codes, the expiry sweep, the engine and the webhook consumer act on one table.
4. **Authorization of a mint** (`Registry`, `RegistryStore`, `Tenancy`, `Minting`, `Refusals`, `MintProtocol`,
   `MintRoutes`). The guard chain of a mint reads a registry that changes between its reads; each way it can end has its
   cause.

## What is assumed

- Delivery: the producer enqueues an id once; a replica does not crash while it holds an id; a store command that reports
  an error changed nothing; the ZREM in `Due` and the LPUSH that re-enqueues an id do not fail. Payload reads, RPOP,
  ZRANGEBYSCORE, counter reads and writes, ZADD, webhook_state writes and POSTs fail freely.
- The clock never goes backwards and all replicas share it. Times are integers of nanoseconds; scores are whole seconds.
- argon2id returns as many bytes as it is asked for. SHA-256 is injective, and the digest has at least the 16 bytes that
  the dummy salt takes (an injective function cannot have exactly 32).
- The engine moves sessions that are pending or engaged only, and enqueues only those it has just made verified or failed.
- A response code is issued once; the engine does not reuse one, not even after it has been taken or lost.
- Scope inclusion, the origin of a URL, the bare-web-origin test, case folding and the validity of a registration
  reference are arbitrary functions, the same throughout a run.

## Where the code and its documentation differ

- `internal/webhook/retry.go:22-25` says that an attempt counter never outlives the result. It can
  (`DeliveryLimits.CounterOutlivesResult`): the time to live is computed from a clock reading before the SET, and the
  counter ends by the expiry exactly if no time passes between the two (`DeliveryLimits.CounterEndsByExpiryIff`). It never
  ends before the expiry, which is what the bound on Deliver calls needs.
- `internal/webhook/consumer.go:384-385` names ErrExhausted and ErrExpired as the terminal errors of Schedule; the code
  treats a failing store in the same way (`DeliveryLimits.ErrorsAreTerminal`). An erring Schedule leaves its counter
  written exactly if it accepted the retry, the SET worked and the ZADD failed (`DeliveryLimits.ErringScheduleWritesIff`,
  and the run `DeliveryLimits.FailedWithCounter`).
- `internal/webhook/retry.go:91-92` says that attempt is never large enough to overflow the shift because maxAttempts
  bounds it. No limit on maxAttempts exists; what keeps the arithmetic exact is the time to the expiry. Schedule is right
  in all runs with a window below a bound exactly if that bound is at most 2^62 ns (`DeliveryLimits.RightBelowIff`); at
  2^62 ns a run reaches the overflow (`DeliveryLimits.OverflowRun`).
- `internal/webhook/retry.go:51-53` says that maxAttempts bounds the attempts independently of the expiry. A failed
  counter read makes the count start over (`DeliveryLimits.ExtraRetry`), so it does so exactly for ids without such a
  failure (`DeliveryLimits.LimitHoldsIff`); each failure allows maxAttempts more
  (`DeliveryTheorems.DeliverCallsBounded`).
- `routes/authmw.go:60-72` and line 218 of the service's README.md say that every failing path pays a full derive and
  none is served fast. A malformed key can be refused without a derive (`AuthService.RefusedFast`): the text of the dummy
  secret passes the dummy hash and is cached. So can a revoked key or an inactive client's that is still cached. That is
  all, apart from malformed stored hashes (`AuthProtocol.RefusedWithoutDeriveIff`); a secret that fails its hash always
  costs one derive (`AuthProtocol.CacheIsTransparent`).
- `internal/apikeys/apikeys.go:166-168` says that anything but the exact argon2id shape is rejected. A stored hash of
  another shape can be accepted (`ApiKeys.LenientHash`): what follows a number is ignored, and blanks, a sign, zeros, line
  breaks and stray bits go through. Which texts are accepted is `ApiKeys.DecodedIff`; an accepted one is the text
  encodePHC writes for what it holds exactly if each of its sections is (`ApiKeys.RenderedIff`).
- "Not before its score" is not a property of the claim by ZREM alone (`internal/webhook/retry.go:111-114`). It holds
  exactly if there is at most one replica (`DeliveryLimits.OnTimeIffAlone`); with two, a stale range lets a rescheduled id
  run early (`DeliveryLimits.EarlyRetry`).
- The service's own README.md, at line 224, makes the sweeper the way to notify a client of an expired session. A session
  with a webhook is notified of its expiry, or about to be, exactly if the sweep flipped it
  (`SessionExpiry.NotifiedIffSwept`); one that a poll or a cancellation finds past its expiry never is
  (`SessionExpiry.SilentExpiry`).
- `routes/templates.go:20-22` says that a stored template can never outrun the client's registration. It can
  (`MintProtocol.TemplateOutruns`): the write does not look at the scope that was checked, and so is sure to be within
  the registration exactly if the credentials are still those checked (`MintProtocol.WrittenWithinScopeIff`). What
  protects the mint is that createSession repeats the check (`MintProtocol.TemplateGivesNoExemption`).

## Model

| member | source | states |
|---|---|---|
| Backoff.DelayExactIff | internal/webhook/retry.go:91-92 | the int64 shift and product give base times 2^attempt exactly when that fits in int64 |
| Backoff.AcceptedInsideExpiry | internal/webhook/retry.go:86-100 | whatever the arithmetic does, an accepted retry is scored no later than the expiry, was decided before it, and its counter lives for the time left, or the longest duration there is |
| Backoff.AcceptedIff | internal/webhook/retry.go:86-100 | without overflow Schedule accepts exactly the attempts below the limit whose delay ends by the expiry |
| Backoff.RefusedIff | internal/webhook/retry.go:86-100 | which refusal it is: exhausted exactly at the attempt limit, expired exactly if below it the next attempt or the present is past the expiry |
| Delivery.Exclusive | internal/webhook/retry.go:111-135 | an id in a replica's hands is in no store, not finished and with no other replica |
| Delivery.OwnershipStep | internal/webhook/consumer.go:280-399 | every step of every replica keeps each produced id in exactly one place |
| DeliveryHistory.InvStep | internal/webhook/consumer.go:280-399 | every step keeps the invariant on each id's place, counter, Deliver calls, webhook_state and on the outcome counters |
| DeliveryHistory.NoOverflow | internal/webhook/retry.go:91-104 | if the window from the first Schedule call to the expiry is under 2^62 ns, an attempt read from a stored counter leaves the doubled delay inside int64 |
| DeliveryTheorems.ExactlyOnePlace | internal/webhook/consumer.go:280-399 | in every reachable state a produced id is once in the queue, the retry set, one replica's hands or the finished ids, and an unproduced one is nowhere |
| DeliveryTheorems.ScheduleNeverOverflows | internal/webhook/retry.go:86-104 | in every run, for ids with a window under 2^62 ns, any maxAttempts and any failed counter reads, Schedule's delay is exact and it accepts exactly when it should |
| DeliveryTheorems.CounterReadIsExact | internal/webhook/retry.go:139-148 | for an id without failed reads so far and a window under 2^63 ns, the counter an owner reads equals the earlier failed Deliver calls, or has expired and Schedule refuses from then on |
| DeliveryTheorems.DeliverCallsBounded | internal/webhook/consumer.go:360-388 | with a window under 2^63 ns and f failed counter reads an id gets at most (f + 1) maxAttempts + 1 Deliver calls, so maxAttempts + 1 if none failed; counter expiry buys no extra one |
| DeliveryTheorems.ScoresInsideExpiry | internal/webhook/retry.go:93-107 | every stored score lies within the expiry of a deliverable envelope |
| DeliveryTheorems.NoPostAfterAck | internal/webhook/consumer.go:352-367 | a POST is only made for an unfinished id with a webhook that never got a 2xx, and in state delivering if state writes succeed |
| DeliveryTheorems.WebhookStateFollows | internal/webhook/consumer.go:315-399 | webhook_state moves only from pending to delivering, and from these to a final value it never leaves |
| DeliveryTheorems.FinishedForGood | internal/webhook/consumer.go:315-399 | through every continuation a finished id keeps its fate, its state, its counter and its number of Deliver calls |
| DeliveryTheorems.AckedStaysAcked | internal/webhook/consumer.go:360-367 | after a 2xx there is no further Deliver call for the id in any continuation, and it can only finish as delivered |
| DeliveryTheorems.OutcomesCounted | internal/webhook/consumer.go:361-366 | the two outcome counters equal the numbers of delivered and failed ids; a finished id's state shows its fate |
| DeliveryTheorems.NeverDroppedInSilence | internal/webhook/consumer.go:303-350 | in every reachable state an id finished as skipped has an envelope without a webhook, and one finished as delivered an envelope with one; all others fail and are counted |
| DeliveryTheorems.HistoryIsCurrent | internal/webhook/consumer.go:315-399 | the history the theorems speak of is what it says: each step adds what it is named for, to the id its replica is processing |
| DeliveryTiming.ScheduleTimed | internal/webhook/retry.go:91-107 | one scheduling adds one more doubled backoff to an id's schedule, up to a second of truncation |
| DeliveryTiming.LoneConsumerKeepsSchedule | internal/webhook/retry.go:91-119 | with one consumer no retry is claimed before its score; with a window under 2^62 ns the k-th comes later than its backoffs together, less k seconds, after the first Schedule, and only if they fit before the expiry: base(2^k - 1), or at least k times base once a counter read failed |
| DeliveryTiming.StoredScoresSpaced | internal/webhook/retry.go:91-107 | with one consumer and a window under 2^62 ns every stored score is past those backoffs, and a k-th retry is stored only if they fit before the expiry, up to k - 1 seconds |
| DeliveryLimits.ExtraRetry | internal/webhook/consumer.go:379-383 | a run with one failed counter read in which an id with a single retry gets three Deliver calls |
| DeliveryLimits.LimitHoldsIff | internal/webhook/retry.go:51-53 | in all runs ids with up to f failed counter reads get at most maxAttempts + 1 Deliver calls, if and only if f is zero |
| DeliveryLimits.CounterOutlivesResult | internal/webhook/retry.go:91-104 | a run that stores an attempt counter ending after the result |
| DeliveryLimits.CounterEndsByExpiryIff | internal/webhook/retry.go:91-104 | after any run between an accepted Schedule and its SET, the counter ends no earlier than the expiry, and no later exactly if no time has passed |
| DeliveryLimits.ErrorsAreTerminal | internal/webhook/consumer.go:379-388 | which error arises when, the attempt limit before the expiry, and that every one of them, a failing store's included, ends the id as failed and unscheduled |
| DeliveryLimits.ErringScheduleWritesIff | internal/webhook/retry.go:86-109 | an erring Schedule can change a store exactly if it accepted, its SET worked and its ZADD failed; it then leaves the counter and nothing else |
| DeliveryLimits.FailedWithCounter | internal/webhook/retry.go:102-107 | a run that fails an id with attempts and time left, and leaves its counter |
| DeliveryLimits.OverflowRun | internal/webhook/retry.go:91-97 | a run with a window of 2^62 ns in which Schedule accepts a retry in the distant past |
| DeliveryLimits.RightBelowIff | internal/webhook/retry.go:86-100 | in all runs with windows below a bound Schedule's delay and acceptance are right, if and only if the bound is at most 2^62 ns |
| DeliveryLimits.EarlyRetry | internal/webhook/retry.go:115-131 | a run of two replicas in which a rescheduled id is claimed before its score from a stale range |
| DeliveryLimits.OnTimeIffAlone | internal/webhook/retry.go:111-135 | no run of n replicas claims an id before its score, for any configuration, if and only if n is at most one |
| Processing.FetchSettles | internal/webhook/consumer.go:315-354 | what each answer to the payload read does to the stores: a missing or malformed payload is failed and counted at once, an unreadable one is queued again, one without a webhook changes nothing, any other is marked delivering first |
| Processing.DeliverSettles | internal/webhook/consumer.go:360-399 | what each answer to the POST does to the stores: delivered and counted, or failed and counted, or exactly when Schedule does not err the next attempt's counter and its place in the retry set |
| Processing.ProcessedIsARun | internal/webhook/consumer.go:315-399 | an uninterrupted processOne is a run of the protocol that leaves the stores as its specification says |
| Refinement.DrainIsARun | internal/webhook/consumer.go:280-291 | the drain loop of one replica moving alone is a run of the protocol reaching the same stores |
| Refinement.DueIsARun | internal/webhook/retry.go:115-135 | Due by a replica moving alone is a run of the protocol that claims the whole range in its order |
| Refinement.CycleIsARun | internal/webhook/consumer.go:280-301 | a whole cycle without a failing ZREM is a run of the protocol that leaves the stores as RunOnce says, and the replica ready for the next |
| Draining.DrainEmpties | internal/webhook/consumer.go:280-291 | with finitely many transient read failures and no producer the drain loop ends with the queue empty |
| Draining.DrainCounts | internal/webhook/consumer.go:321-333 | each id is handled once for each time it was queued, plus once for each of its failed reads |
| Draining.DrainOrder | internal/webhook/consumer.go:280-291 | the drain handles the queue from its right end, and what fails comes again after everything that waited, in the same order |
| Draining.DrainIsFifo | internal/webhook/consumer.go:280-333 | the whole order of handling is first in, first out, round by round of re-enqueued ids |
| Consumer.Retrier.Schedule | internal/webhook/retry.go:86-109 | the error and the stores it leaves, including a failing SET or ZADD; a refusal writes nothing |
| Consumer.Retrier.Attempts | internal/webhook/retry.go:139-148 | the stored attempt count before its expiry; 0 when missing, expired or unreadable |
| Consumer.Retrier.Due | internal/webhook/retry.go:115-135 | claims exactly the due ids in score order; a failing ZREM yields nothing although the ids before it are gone |
| Consumer.Consumer.ProcessOne | internal/webhook/consumer.go:315-389 | leaves the stores as the specification of one processed id says, on every combination of answers and with its three clock readings apart |
| Consumer.Consumer.RunOnce | internal/webhook/consumer.go:280-301 | a cycle drains the queue, claims what is due and works it off, in the order it logs |
| Consumer.Consumer.Terminal | internal/webhook/consumer.go:394-399 | marks the delivery failed and counts it once |
| Ordering.ListedUnique | internal/webhook/retry.go:116-119 | there is one way to list a set of ids by score and then by id, so the claim order is determined |
| Encoding.OctetsOfSextets | internal/apikeys/apikeys.go:85-85 | regrouping any number of bytes into sextets and back gives the same bytes (RFC 4648 section 4) |
| Encoding.SextetsOfOctets | internal/apikeys/apikeys.go:188-195 | whole groups of four sextets decode to three bytes each, and encoding these gives the sextets back |
| Encoding.SextetsAreTheBytes | internal/apikeys/apikeys.go:85-85 | read as one number, the sextets are the bytes, shifted by the bits that fill up the last one (RFC 4648 section 4) |
| Encoding.Char64IsTabled | internal/apikeys/apikeys.go:85-85 | the two alphabets are those of RFC 4648, sections 4 and 5 |
| Encoding.Decode64OfEncode | internal/apikeys/apikeys.go:156-161 | decoding an encoding, with either alphabet, gives the bytes back, and no character of it is outside the alphabet |
| Encoding.Decode64Iff | internal/apikeys/apikeys.go:188-195 | a text decodes exactly if, line breaks aside, its characters are in the alphabet and no sextet is left over alone |
| Strings.SplitOfJoin | internal/apikeys/apikeys.go:170-170 | splitting joined parts that lack the separator gives the parts back |
| Strings.JoinOfSplit | internal/apikeys/apikeys.go:170-170 | joining the parts of a split gives the string back, and no part contains the separator |
| Strings.JoinOfSplitN | internal/apikeys/apikeys.go:107-107 | joining the parts of a bounded split gives the string back |
| Strings.ScanUintOfDecimal | internal/apikeys/apikeys.go:185-185 | scanning a printed number in range gives the number and the rest |
| Strings.ScanUintIff | internal/apikeys/apikeys.go:185-185 | a scan succeeds exactly on blanks, a number in range and a rest, and returns that number and rest |
| Strings.ScanIntIff | internal/apikeys/apikeys.go:176-176 | the same for a signed number, with one sign before the digits |
| ApiKeys.ParseOfDisplay | internal/apikeys/apikeys.go:106-121 | every displayed key parses to its prefix and secret, wherever the secret contains the separator |
| ApiKeys.ParseIff | internal/apikeys/apikeys.go:74-141 | Parse accepts a string exactly if it is the displayed key of some 5 + 24 bytes, and returns exactly those parts |
| ApiKeys.DisplayInjective | internal/apikeys/apikeys.go:74-95 | different bytes are displayed as different keys |
| ApiKeys.DecodeOfRender | internal/apikeys/apikeys.go:169-207 | a hash rendered with any parameters in range decodes to them, its salt and its tag, and is refused exactly when one of the two is empty or longer than 128 bytes |
| ApiKeys.DecodeOfEncode | internal/apikeys/apikeys.go:156-207 | the same with the mint parameters |
| ApiKeys.EncodedText | internal/apikeys/apikeys.go:152-161 | the text of a stored hash, with the mint parameters in their places |
| ApiKeys.DecodedIff | internal/apikeys/apikeys.go:163-207 | a stored hash is accepted exactly if its text names argon2id and has four more sections: the version, the three parameters, and salt and tag of 1 to 128 bytes; it then holds just those |
| ApiKeys.ScanVersionIff | internal/apikeys/apikeys.go:175-178 | the version section is a label and a number |
| ApiKeys.ScanParamsIff | internal/apikeys/apikeys.go:183-187 | the parameters are three numbers in range, each right after its own label, in this order |
| ApiKeys.LenientHash | internal/apikeys/apikeys.go:163-187 | a text of another shape than encodePHC writes that is accepted as a stored hash |
| ApiKeys.RenderedIff | internal/apikeys/apikeys.go:163-207 | an accepted hash is what encodePHC would write for what it holds exactly if its version, parameters, salt and tag are written canonically |
| ApiKeys.CheckOfRender | internal/apikeys/apikeys.go:303-333 | a secret is checked with the memory, time, threads and tag length of the stored hash, not with those of the mint |
| ApiKeys.CheckIff | internal/apikeys/apikeys.go:303-333 | the same for every text accepted as a stored hash; a text that is not accepted is an error instead of a mismatch |
| ApiKeys.MintedFrom | internal/apikeys/apikeys.go:69-94 | the first 5 random bytes are the published prefix, the next 24 the secret, the next 16 the salt; the key displays the first two, and the stored hash holds the salt, the tag derived from the secret with it, and the mint parameters |
| ApiKeys.MintedIff | internal/apikeys/apikeys.go:74-90 | a source mints a key exactly if it has 45 bytes |
| ApiKeys.MintedKeyChecks | internal/apikeys/apikeys.go:74-95 | what Mint displays parses to the prefix it stores, and its secret passes the hash it stores |
| KeyCache.DummyIsWellFormed | internal/apikeys/apikeys.go:216-232 | the dummy hash decodes, to the mint parameters and the tag of the dummy secret under the dummy salt, so checking against it costs a derive |
| KeyCache.StoredKeeps | internal/apikeys/apikeys.go:357-369 | the cache's keys stay the members of a duplicate-free order list of at most 1024 |
| KeyCache.StoredHits | internal/apikeys/apikeys.go:340-369 | what is stored hits for five minutes and for its own secret only; of the other keys only the oldest can be lost |
| KeyCache.StoredRecent | internal/apikeys/apikeys.go:357-369 | the order list stays the last part of the history of insertions |
| KeyCache.StaysUntilEvicted | internal/apikeys/apikeys.go:361-366 | an inserted key stays until 1024 others have been inserted after it, and no longer unless inserted again |
| KeyCache.Verifier.CacheLookup | internal/apikeys/apikeys.go:340-352 | a hit is a live entry of the same secret hash |
| KeyCache.Verifier.CacheStore | internal/apikeys/apikeys.go:357-369 | stores with the captured instant and evicts first in, first out; the cache stays well kept |
| KeyCache.Verifier.Verify | internal/apikeys/apikeys.go:308-333 | the verdict, the number of derives and the cache afterwards; only a success on a miss changes the cache |
| AuthProtocol.HashStays | internal/registrydb/fake.go:222-247 | no registry operation changes the hash a key id stands for |
| AuthProtocol.AuthenticateIff | routes/authmw.go:73-117 | the cache-free decision: the holder of a secret passing the hash of a registered, unrevoked key is taken for its client if that is active and told so if not; everyone else is just unauthorized |
| AuthProtocol.InvStep | routes/authmw.go:73-119 | every step of every request, of the registry and of time keeps the cache sound and the requests faithful |
| AuthProtocol.CacheIsTransparent | routes/authmw.go:73-119 | in every run a decision is that of a cache-free function of the presented key and the registry at its lookup; if the secret fails the hash the key comes down to, its own or the dummy's, exactly one derive ran |
| AuthProtocol.HitAtProbe | internal/apikeys/apikeys.go:312-314 | the record of a cache hit is set by the probe alone |
| AuthProtocol.DerivesAreCurrent | internal/apikeys/apikeys.go:316-330 | the records of derives and of successful ones grow by the derive step alone, for its own request, key, secret and instant |
| AuthProtocol.RefusedWithoutDeriveIff | routes/authmw.go:104-115 | in every run a refusal ran no derive exactly if the stored hash is malformed or the cache answered; then the secret is right, and the refusal is for a secret passing the dummy hash, a revoked key or an inactive client |
| AuthProtocol.StepsAreFree | routes/authmw.go:73-119 | in reachable states a step needs nothing but its own request's progress, so no interleaving is excluded |
| AuthProtocol.SeenAtLookup | routes/authmw.go:88-100 | the registry a decision depends on is the one of the lookup step, and stays recorded |
| AuthProtocol.HitIsJustified | internal/apikeys/apikeys.go:312-314 | a hit is justified by a successful derive for the same key id and secret captured at most five minutes earlier |
| AuthProtocol.CacheIsBounded | internal/apikeys/apikeys.go:242-245 | in every reachable state the cache is bounded, its keys are those of the duplicate-free order list, that list is the last part of all insertions, and the last 1024 are present |
| AuthProtocol.RevocationIsImmediate | routes/authmw.go:108-111 | in every run a request that has not looked its key up when the key is revoked finishes refused, or failed by the registry, whatever is cached |
| AuthProtocol.RevokedThroughRun | internal/registrydb/fake.go:236-247 | no run undoes a revocation |
| AuthProtocol.MintedKeyAuthenticates | routes/authmw.go:73-119 | a minted key, once created, is admitted exactly while its client is active, and refused once revoked |
| AuthService.Service.Find | routes/authmw.go:75-100 | a malformed or unknown key is replaced by the dummy pair, with the whole text or its secret part to be checked; otherwise the pair is the registry's for the prefix |
| AuthService.AloneIsTransparent | routes/authmw.go:73-119 | with a sound cache a request gets the cache-free decision, a failing verdict on a well-formed hash costs one derive, and the cache stays sound |
| AuthService.AuthenticateIsARun | routes/authmw.go:73-119 | a request run alone is a run of the protocol with the same decision, derives and cache |
| AuthService.RefusedFast | routes/authmw.go:60-72 | a run with the real key functions that refuses a malformed key, the text of the dummy secret, without a derive |
| AuthService.Service.Authenticate | routes/authmw.go:73-119 | the decision is the cache-free one or the registry's failure, every failing verdict on a well-formed hash ran exactly one derive, and the cache stays sound |
| AuthService.Service.CreateKey | internal/registrydb/fake.go:222-234 | creates the key without unsettling the cache |
| AuthService.Service.RevokeKey | internal/registrydb/fake.go:238-247 | revokes the key without unsettling the cache, which is not even touched |
| AuthService.SoundThrough | internal/registrydb/fake.go:222-247 | every registry operation leaves every cache entry justified |
| Registry.MintedIdsDiffer | internal/registrydb/fake.go:52-55 | different counter values give different ids |
| Registry.NextIsFresh | internal/registrydb/fake.go:52-55 | the next id belongs to no client, template or key |
| Registry.PerformConsistent | internal/registrydb/fake.go:150-286 | every operation keeps ids minted by the counter, prefixes resolving to keys of their own, and uses filed under their own id |
| Registry.CreatedClientReads | internal/registrydb/fake.go:250-268 | a created client reads back under a fresh id with the defaults filled in, and no other client changes |
| Registry.CreatedKeyResolves | internal/registrydb/fake.go:58-74 | a created key resolves from its prefix to its own live record with the client's status; every other prefix resolves as before |
| Registry.KeyRefusedIff | internal/registrydb/fake.go:220-247 | a key is refused exactly for a prefix in use, a revocation exactly for a key that is not the client's, each with its own error and without a change |
| Registry.RevokedKeyResolves | internal/registrydb/fake.go:238-247 | revocation succeeds exactly for the owner's key, which then resolves as revoked; every other as before |
| Registry.CreatedTemplateReads | internal/registrydb/fake.go:150-192 | a template is written exactly against the client's own unrevoked use, with the error telling an absent from a revoked one; it then reads back, and every other reads as before |
| Registry.DeletedTemplateGone | internal/registrydb/fake.go:183-218 | a deletion succeeds exactly if the template could be read, and it cannot be read afterwards; every other reads as before |
| Registry.ReplacedUsesRead | internal/registrydb/fake.go:273-286 | a replacement leaves the client exactly the uses given, the last row under each id, and no other client's changed |
| Registry.RowsMintIds | internal/registrydb/fake.go:276-283 | a row given without an id gets one that the counter had not yielded before |
| Registry.MintedRowsDiffer | internal/registrydb/fake.go:276-283 | no two rows get the same minted id |
| Registry.RecordedCertificateReads | internal/registrydb/fake.go:121-145 | for clients whose ids lack the separator, a recorded certificate is what is read for its use, an empty one as none, and no other use of any client reads differently |
| Registry.MintedLacksBar | internal/registrydb/fake.go:52-55 | no minted id contains that separator |
| RegistryStore.Store.LookupPrefix | internal/registrydb/fake.go:58-74 | the record of a prefix with the client's status of the moment, or not found |
| RegistryStore.Store.AddKey | internal/registrydb/fake.go:222-234 | adds a key under a fresh id, or refuses a prefix in use and changes nothing |
| RegistryStore.Store.RevokeKey | internal/registrydb/fake.go:238-247 | revokes the owner's key only |
| RegistryStore.Store.AddClient | internal/registrydb/fake.go:250-268 | adds a client under a fresh id with the defaults filled in |
| RegistryStore.Store.ReplaceUses | internal/registrydb/fake.go:273-286 | replaces the whole set of a client's intended uses, minting row ids where absent |
| RegistryStore.Store.AddTemplate | internal/registrydb/fake.go:150-179 | writes a template under a fresh id only against an existing, unrevoked use |
| RegistryStore.Store.ReadWRPRC | internal/registrydb/fake.go:121-136 | not found for a use that is not the client's, a success without a value for one without a certificate |
| RegistryStore.Store.ReadTemplate | internal/registrydb/fake.go:183-192 | the client's own, undeleted template, or not found |
| RegistryStore.Store.RemoveTemplate | internal/registrydb/fake.go:209-218 | deletes the client's own, undeleted template, or not found |
| Tenancy.AnswersDependOnView | internal/registrydb/fake.go:77-136 | two registries that agree on a client's rows answer every read, the certificate read included, and every delete of that client alike |
| Tenancy.ForeignLooksAbsent | internal/registrydb/fake.go:183-218 | a foreign template and one that does not exist are answered identically, and neither can be deleted |
| Tenancy.OthersKeepView | internal/registrydb/fake.go:150-286 | an operation on one client's registration, keys, intended uses or templates leaves every other client's rows as they were |
| Tenancy.Isolation | internal/registrydb/fake.go:150-286 | no sequence of such operations on other clients changes any answer a client gets |
| Tenancy.TemplateBinding | internal/registrydb/fake.go:150-218 | every operation leaves a template id its owner and content, and a deleted one deleted |
| Sessions.GetIff | internal/sessiondb/fake.go:57-77 | exactly the client's own session is found; it is expired on the spot exactly if it is live and at or past its expiry, and nothing else changes |
| Sessions.CancelIff | internal/sessiondb/fake.go:82-96 | a session is cancelled exactly if it is the client's, live and before its expiry; otherwise a live one becomes expired, and nothing else changes |
| Sessions.RedeemIff | internal/sessiondb/fake.go:114-128 | exactly the client's own session is redeemed, with the instant of the first redemption, and nothing else changes |
| Sessions.WebhookWriteIff | internal/sessiondb/fake.go:135-148 | exactly the four states are written, to exactly the session named; which error arises otherwise, and that nothing changes then |
| Sessions.SweepTakesSmallest | internal/sessiondb/fake.go:163-189 | a sweep expires exactly the min(limit, n) smallest-id due sessions, in order, and touches no other row |
| Sessions.DueAfterSweep | internal/sessiondb/fake.go:163-189 | what is due after a sweep is the rest of the due list |
| Sessions.SweepsDrain | internal/sessiondb/fake.go:163-189 | k sweeps at one instant expire exactly the first k times limit due sessions, each once, in order |
| Sessions.DrainedInCeil | internal/sessiondb/fake.go:163-189 | k sweeps leave nothing due exactly if k times limit is at least n |
| Sessions.SessionStore.Get | internal/sessiondb/fake.go:67-77 | the client's session after lazy expiry, or not found and nothing changed |
| Sessions.SessionStore.CancelSession | internal/sessiondb/fake.go:82-96 | the cancel matrix, with lazy expiry applied even when the cancellation is refused |
| Sessions.SessionStore.Redeem | internal/sessiondb/fake.go:116-128 | the first redemption wins |
| Sessions.SessionStore.WriteWebhookState | internal/sessiondb/fake.go:135-148 | writes a valid state and the error code, or refuses and changes nothing |
| Sessions.SessionStore.Sweep | internal/sessiondb/fake.go:163-189 | the loop over sorted ids expires and returns exactly the batch |
| SessionProtocol.LiveOrTerminal | routes/sessions.go:313-317 | pending and wallet_engaged are the live states, the other four the terminal ones |
| SessionProtocol.TableEvolves | internal/sessiondb/fake.go:57-189 | under every store operation and engine step terminal states, their instants, identities and redemptions stay |
| SessionProtocol.CancelOnlyBeforeExpiry | internal/sessiondb/fake.go:82-96 | a session becomes cancelled only by its owner's call, while live and before its expiry |
| SessionProtocol.InvStep | routes/sessions.go:322-431 | every step keeps codes, redemptions, polls and notifications consistent |
| SessionTheorems.RunEvolves | internal/sessiondb/fake.go:57-128 | terminal states absorb through every run |
| SessionTheorems.ReleaseImpliesRedemption | routes/sessions.go:363-397 | in every concurrent run a released same-device result implies that a poll of the same client took a code indexing that session |
| SessionTheorems.CodeSpentForGood | routes/sessions.go:373-387 | a code is taken by at most one poll |
| SessionTheorems.OnlySameDeviceTakesCodes | routes/sessions.go:365-373 | a poll that changes the code index is a same-device poll, not yet redeemed, whose code was there |
| SessionTheorems.RedemptionIsSticky | routes/sessions.go:363-397 | in every run a poll that starts after a redemption never reaches for a code, and its response releases exactly if it found the session verified |
| SessionTheorems.CompletionIsFinal | routes/sessions.go:317-340 | once a poll reports completedAt, all polls started later report the same state and instant |
| SessionTheorems.FinalStateIsReported | routes/sessions.go:332-340 | in every run all polls started after a session has ended report the state it ended in and the instant of that |
| SessionTheorems.CancelIsReported | routes/sessions.go:332-340 | so in every run all polls started after a successful cancellation report it with its instant |
| SessionTheorems.SpentIsCurrent | routes/sessions.go:365-373 | the record of spent codes is what it says: the taking step notes the poll, the client and the session the code indexed |
| SessionTheorems.RecordsAreCurrent | internal/webhook/sweeper.go:72-92 | hand-offs, deliveries and notifications are recorded by the steps of that name only |
| SessionTheorems.NotifiedOnceAndExclusively | internal/webhook/sweeper.go:72-112 | no session is expired-notified twice, or notified and also delivered; only a sweep leads to a notification |
| SessionTheorems.LazyExpiryIsSilent | internal/sessiondb/fake.go:57-62 | a lazily expired session is never notified in any continuation |
| SessionExpiry.FlippedBy | internal/sessiondb/fake.go:57-62 | only a sweep adds to the swept sessions, only a poll or a cancellation to the lazily expired ones |
| SessionExpiry.NotifiedIffSwept | internal/webhook/sweeper.go:72-92 | in every run an expired session was flipped by exactly one of the two, and one with a webhook is notified, or about to be, if and only if it was the sweep |
| SessionExpiry.SilentExpiry | internal/sessiondb/fake.go:67-77 | a run that expires a session with a webhook which is not notified in any continuation |
| SessionTheorems.BatchesDisjoint | internal/sessiondb/fake.go:163-189 | across any run a batch repeats no session expired before |
| SessionRoutes.PollIsARun | routes/sessions.go:322-402 | a poll run alone is a run of the protocol |
| SessionRoutes.PolledValue | routes/sessions.go:322-402 | the protocol's poll, on the table, the code index and the response, is the function the handler computes |
| SessionRoutes.PollAnswers | routes/sessions.go:322-402 | what a poll of the client's own session answers and changes, whichever of its calls fail: when it fails, state and completion instant by status, release gate, code index and redemption |
| SessionRoutes.PollFinds | routes/sessions.go:326-330 | a poll is answered not found exactly for a session that is absent or another client's, and then changes nothing |
| SessionRoutes.SessionRouter.GetSession | routes/sessions.go:322-402 | the handler's effect and answer are those of the protocol's poll, whatever calls fail and whenever the store sees each |
| SessionRoutes.SessionRouter.CancelSession | routes/sessions.go:414-431 | the cancellation is the store's, and the engine is told exactly if it committed |
| SessionRoutes.Sweeper.RunOnce | internal/webhook/sweeper.go:72-112 | the sweep and one post after the other, as the specification lists them |
| SessionRoutes.NoticesAre | internal/webhook/sweeper.go:87-112 | the posts of a sweep are about exactly the sessions of the batch that have a webhook, once each and in order, each to its own webhook and with its report exactly if that could be read and mapped |
| SessionRoutes.SweepIsARun | internal/webhook/sweeper.go:72-81 | a sweeper cycle is a run of the protocol that notifies exactly the sessions it posts about |
| Minting.GrantedIffAuthorized | routes/sessions.go:36-271 | whatever the four reads found, the guard chain grants a create if and only if it is the authorized one |
| Minting.UnusableIff | routes/sessions.go:162-171 | the dc_api flow is refused for origins exactly when some registered origin is not a web origin, and names such a one |
| Minting.SourcedIff | routes/sessions.go:71-106 | query and intended use come from the caller's own template, or the request, or the client's only use |
| Refusals.FlowNames | internal/api/types.go:153-165 | the four names of the three flows |
| Refusals.TargetFaultIff | routes/sessions.go:149-203 | the fault of origins, redirect and webhook targets that is reported is the first in the source's order, and none exactly if all are fine |
| Refusals.RefusedIff | routes/sessions.go:36-271 | whatever the four reads found, a request gets a refusal if and only if it has the cause for it and for none looked for before; a query outside the scope is refused with its offending paths |
| Minting.MintDependsOnView | routes/sessions.go:64-212 | a mint comes out the same for registries that agree on the client's rows, so foreign ids look absent |
| Minting.OthersCannotAffectMint | routes/sessions.go:36-271 | no sequence of such operations on other clients changes the outcome of a mint |
| MintProtocol.InvStep | routes/sessions.go:36-271 | every step keeps each request where the guard chain stands after what it has read, whatever it will read |
| MintProtocol.CreatesAreAuthorized | routes/sessions.go:36-271 | in every run the engine is asked for exactly what the registry, as read by that request, authorizes |
| MintProtocol.RefusalsAreDue | routes/sessions.go:36-271 | in every run a request is refused, unless the store failed, only if the registry as it read it authorizes nothing, and for the cause that registry gives |
| MintProtocol.ReadsAreCurrent | routes/sessions.go:64-212 | a read records the registry of its own moment, and nothing changes the record |
| MintProtocol.BirthsAreCurrent | routes/templates.go:43-87 | the record of a template holds the registry its check read and the one its write left |
| MintProtocol.TemplateGivesNoExemption | routes/sessions.go:108-138 | a session minted from a template needs its intended use unrevoked and covering its query at the mint's own read, besides the check at writing |
| MintProtocol.RunKeepsTemplates | internal/registrydb/fake.go:150-218 | through every run a template id keeps its owner and content, and a deleted one stays deleted |
| MintProtocol.DeletedTemplateMintsNothing | internal/registrydb/fake.go:183-218 | a request that had not read its template when it was deleted never gets the engine called, in any continuation |
| MintProtocol.WrittenWithinScopeIff | routes/templates.go:43-87 | a template that passed the check is sure to be within the registration when written exactly if the use's credentials are still those checked |
| MintProtocol.TemplateOutruns | routes/templates.go:43-87 | a run that stores a template which is outside the client's registration from the start |
| MintRoutes.MintIsARun | routes/sessions.go:36-271 | createSession, with any registry changes between its reads and any of them failing, is a run of the protocol with the same end |
| MintRoutes.TemplateIsARun | routes/templates.go:25-93 | createTemplate, with any registry changes between check and write, is a run of the protocol with the same end |
| MintRoutes.SequentialMint | routes/sessions.go:36-271 | whatever the four reads find and whichever fail, the engine gets authorized creates only, and an authorized one is refused only by a failing store |
| MintRoutes.StoreFailedIff | routes/sessions.go:64-212 | a store failure is reported exactly if one of the reads that the request gets to make fails |
| MintRoutes.MintSettles | routes/sessions.go:36-271 | where a request ends, as an if and only if: in a failing store, in the one authorized create, or in the refusal it has the cause for |
| MintRoutes.TemplateRefusedIff | routes/templates.go:25-91 | a template gets a refusal if and only if it has the cause for it and for none looked for before, and then nothing is written |
| MintRoutes.WrittenIff | routes/templates.go:25-91 | a template is written if and only if it has a name, a use and a query, the use covers it at the check and is in place at the write, and no store call fails; it then reads back under a fresh id |
| MintRoutes.Router.IsAllowed | routes/sessions.go:455-467 | a URL is allowed exactly if it has an origin that equals a registered one up to case |
| MintRoutes.Router.CheckTargets | routes/sessions.go:149-203 | the first fault of origins, redirect and webhook targets in the source's order |
| MintRoutes.Router.CreateSession | routes/sessions.go:36-271 | with the registry as each of the four reads finds it: one engine call with an authorized create, or none and the refusal the request has the cause for |
| MintRoutes.Router.CreateTemplate | routes/templates.go:25-93 | the registry gains the template exactly if check and write pass, each against the registry it finds, and else the refusal has its cause; unchanged in between, the template is within the registration |

## Left out

- Replica crashes: an id a crashed replica holds is lost in the source too; the model has no crash step.
- Consumer.Retrier.Due: a failing ZREM is in the method, not in the protocol, because the ids claimed before it are lost.
- Tenancy.Isolation: recording a certificate for another client is not among the operations; the service has no such write.
- Clock skew between replicas, and time to live rounded to milliseconds by the store.
- Sessions.SessionStore.Get: reads the clock once per store call, the in-memory store twice when it expires a session.
- Scores as float64: whole seconds below 2^53 are exact.
- Unicode white space and carriage returns in Sscanf, and strings as UTF-8: strings are sequences of bytes.
- SHA-256 output length beyond its first 16 bytes, argon2id itself, and the duration of a derive; only their number is modelled.
- HTTP, TLS, JWE decryption, JWS signing, request parsing and response rendering; a POST is accepted, fails for now, or has a permanently bad payload.
- DCQL parsing, scope inclusion, URL parsing and registration-reference validation, which are abstract functions.
- The engine's answer to a create (relayed), the session's correlation id (random), and the result payload a release forwards.
- Creation timestamps of templates, and the session report's contents.
- PostgreSQL and JSON envelopes (internal/registrydb/repo.go, internal/sessiondb/repo.go), seeding and test-only helpers.
- Rate limiting, health routes, configuration, metrics names, logging, the CLI, and task start and stop: a cycle is a step.
- Listing and reading templates over HTTP, flow names in responses, and the wording of problem details: easy members.
