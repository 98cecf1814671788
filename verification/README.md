# Verified model of the policy risk engine

This project models, in Dafny, the transaction gate of the policy risk engine: the evaluate
service and everything it touches. It covers the velocity counters (in memory and in Redis), the
destination whitelist, the cap rules, the seed policy, the swappable engine with its hot reloader,
the audit service with its queue and worker, the review queue, the byte stream that bundle hashes
are taken over, and the numbers policy versions are stored under.

Stateful objects are classes whose methods are specified by functions on the state they hold; the
laws are proved about those functions, mostly over whole runs. `GateFacts`, `GateSeed` and
`GateOutcome` say what the stages, the seed policy and the finalisation amount to in terms of the
request, the configuration and the history of the stores. Where the source drops a lock
between two steps, the two steps are separate and everything else may happen in between:

- `Admission` interleaves the increments, comparisons and compensating rollbacks of any number of
  evaluations of one user with the clock, expiries and outside rollbacks, and `AdmissionOverrun`
  says how far the limit can be overrun;
- `AuditRuns` interleaves signing, persisting, enqueueing and parking by any number of calls with
  the worker's taking, storing, publishing and stopping, with a failure possible at each;
- `WhitelistRuns` and `ReviewRuns` split Verify and Resolve between their read and their write;
- `EngineRace` interleaves one evaluation's reads of the engine with any number of swaps;
- `GateRuns` runs evaluations, whitelist changes, rollbacks, swaps, resolves and worker turns of
  many users against one gate;
- `GateSteps` cuts an evaluation at every access to shared state (whitelist read, increment,
  rollback, engine snapshot, each version read, each metric, persist, offer, park), and
  `GateInterleaving` runs any number of such calls at once; `GateAlone`, `GateLedger`,
  `GateIsolation`, `GateParking`, `GateParkingIds`, `GateDurability`, `GateAdmission` and `GateOverrun`
  prove what holds over those runs.

## Results where the code and its documents part

- The documents promise rolling windows. The counter restarts its TTL at every increment, so it
  never under-counts a window, but it equals the window's increments minus rollbacks if and only if
  it read zero as the window opened and no prefix of the window has more rollbacks than increments
  (`VelocityHistory.RollingExactlyWhenNothingIsCarried`; `RollingExactlyByHistory` says the same of
  the history alone).
- The limit nevertheless holds over every true rolling window, counted in evaluations rather than
  dollars (`Admission.RollingWindowIsRespected`), but for one gap: a compensating rollback that
  arrives after its generation expired counts against the next one and lets an extra call through.
  A generation that no foreign rollback has lowered can be overrun if and only if a call of an
  earlier generation still owes its rollback (`AdmissionOverrun.OverrunExactlyWhenARollbackIsLate`),
  the most it can come to admit is known exactly (`MostAdmitted`), and the overrun is reachable for
  every positive limit and every window (`LateRollbackAdmitsOneMore`).
- EXPIRE takes whole seconds, so the two counters agree on a window if and only if it is negative or
  a positive number of whole seconds (`RedisVelocity.AgreeExactlyOnWholeSeconds`); of the windows a
  configuration can name, only zero differs (`RedisVelocity.ConfiguredWindowsAgree`).
- The whitelist's joined key lets one user open a destination to another exactly when one user id
  continues the other across a `|` (`GateRuns.LeaksExactlyWhenNested`).
- The policy's allow excludes its review and deny rules for `tx.max < 0.9 * daily.max` only when the
  daily cap is not negative; `Rego.AllowExclusiveExactlyWhenCapsApart` gives the exact condition.
  The allow region is downward closed without any condition on the data.
- The rule the cap search finds depends on the order of the rules unless the deciding pass accepts
  copies of one rule only (`Caps.OrderFreeExactlyWhenUnambiguous`).
- Swapping a bundle that does not compile leaves its version reported and the previous policy
  deciding: after any swaps the reported bundle decides if and only if it compiles
  (`Engine.ReportedDecidesExactlyWhenItCompiles`).
- Close does not drain the queue (`AuditClose.CloseCanStrand`): nothing is left behind if and only
  if the queue was empty when the worker stopped and no record was taken since
  (`AuditClose.DrainedExactlyWhenEmptyAtStop`).
- Two overlapping Resolve calls both succeed and the later write stands
  (`ReviewRuns.OverlappingResolvesBothSucceed`). An item can come to two successes if and only if
  its successes and its pending Resolves number two (`WinsInReach`), and that never happens if and
  only if no Resolve passes its check while another on the item is pending (`SerialisedExactly`).
- Parking before storing is possible in exactly the modes other than the synchronous one with a
  store (`AuditRuns.ParkedUnstoredExactlyUnlessDurable`).
- Whether a manual_review item is parked can depend on others: a call under an id that another call
  has used is not parked. Calls under one id never change a call under another, parking included, if
  and only if the ids differ or the latter is empty (`GateParkingIds.DisturbsExactlyUnderOneId`);
  with ids of their own a user's calls and items are isolated altogether
  (`GateParking.ParkingIsolation`).
- The limit at the gate is kept, over every interleaving, unless rollbacks stray into a later life of
  the counter: `GateAdmission.GateRespectsRollingWindow` counts them and says when there are none, and
  `GateOverrun.GateOverrunExactlyWhenARollbackIsLate` says exactly when calls of a user can go past it.
- The bytes a bundle hash is taken over can be decoded back into the bundle if and only if no name or
  content holds a NUL, every source is named *.rego and no data key is
  (`BundleStream.StreamDecodesExactly`).
- The whitelist tells of two triples what was asked for each if and only if they are the same, have
  different joined keys, or are both refused by Add (`WhitelistRuns.RefinesExactlyWhenApart`).

## Assumptions

Amounts and scores are reals and times are integers read from a clock that never runs backwards.
The JSON encoder, Ed25519, SHA-256, OPA's compiler and queries, duration printing, trimming and
number parsing are function parameters; of these only properties of signing and hashing are ever
assumed, each where it is named: a signature is not empty and checks against its own payload, and for
tamper evidence against no other, an encoder and a hash tell their inputs apart. Failures of the store and of the
sink are inputs. A nil component of the evaluate service is a flag. Counters hold unbounded
integers, the limit being the daily cap truncated toward zero as the source converts it. Both
counters share one expiry rule: an entry is readable up to and including its expiry instant. The
Redis client sends EXPIRE whole seconds, a fraction of a second as one and any other remainder cut
off, as the client version of go.mod:10 does.

## Model

| member | source | states |
|---|---|---|
| `Velocity.KeyInjective` | internal/velocity/velocity.go:77-79 | With colon-free suffixes two equal keys come from the same user and window, whatever the user id contains |
| `Velocity.SuffixNames` | internal/velocity/velocity.go:41-52 | The windows of a minute, an hour and a day are named 60s, 1h and 1d |
| `Velocity.SuffixInjective` | internal/velocity/velocity.go:41-52 | Different windows get different suffixes, unless the rendering itself collides or yields a short name |
| `Velocity.MemoryCounter.Increment` | internal/velocity/velocity.go:114-127 | The live count (zero if absent or expired) goes up by one, the TTL restarts, no other key changes |
| `Velocity.MemoryCounter.Rollback` | internal/velocity/velocity.go:132-147 | A live count goes down by one, clamped at zero with the error flag exactly on the clamp; an absent or expired cell is left alone |
| `Velocity.MemoryCounter.Get` | internal/velocity/velocity.go:150-159 | Returns the count while it is live and zero otherwise |
| `VelocityHistory.OnlyDowns` | internal/velocity/velocity.go:132-140 | Rollbacks alone never create a counter |
| `VelocityHistory.LiveIffRecent` | internal/velocity/velocity.go:120-125 | After any history the cell is live exactly while some increment is within the window |
| `VelocityHistory.ReadingIsGenerationCount` | internal/velocity/velocity.go:114-159 | After any history the value is the saturating count since the last gap between increments longer than the window, and zero once the last increment is out of the window |
| `VelocityHistory.GenerationExists` | internal/velocity/velocity.go:114-127 | There is such a last gap, and with it a current generation, exactly when there has been an increment |
| `VelocityHistory.NeverUnderCounts` | internal/velocity/velocity.go:114-159 | The value is never below increments minus rollbacks in any window ending now and no longer than the configured one |
| `VelocityHistory.RollingExactlyWhenNothingIsCarried` | internal/velocity/velocity.go:112-147 | After any history of increments and rollbacks, in any window ending now and no longer than the configured one, the value equals increments minus rollbacks if and only if the counter read zero as the window opened and no prefix of the window has more rollbacks than increments |
| `VelocityHistory.CarriedFromGeneration` | internal/velocity/velocity.go:114-147 | What a live counter carried into the window is the saturating count of its generation up to there |
| `VelocityHistory.FirstSince` | internal/velocity/velocity.go:114-147 | Every history splits at every time into the events before it and those since, as the two theorems beside it ask |
| `VelocityHistory.RollingExactlyByHistory` | internal/velocity/velocity.go:112-147 | The same condition read off the history: the generation opened before the window's first event or with it, had been rolled back to nothing by then, and no rollback in the window outruns the increments |
| `VelocityHistory.OverCounts` | internal/velocity/velocity.go:112-127 | Three increments one window apart are counted as three while the window holds two |
| `Admission.StepKeepsInv` | internal/velocity/velocity.go:114-147 | Every step of every interleaving keeps the bound on the counter, its account by generation, and the cap on admissions |
| `Admission.AdmissionIsBounded` | internal/evaluate/evaluate.go:159-169 | Over every interleaving the counter is at most the limit plus the rollbacks still owed, and each generation admits at most the limit plus the rollbacks foreign to it |
| `Admission.ExactWithoutForeignRollbacks` | internal/evaluate/evaluate.go:159-169 | In a live generation that no foreign rollback has lowered the counter is admitted plus owed, at most the limit are admitted, and the next call is admitted if and only if there is room |
| `Admission.RollingWindowIsRespected` | internal/evaluate/evaluate.go:159-169 | Over every interleaving, the calls admitted within any stretch of time no longer than the window number at most the limit, plus the rollbacks foreign to their generation |
| `AdmissionOverrun.MostAdmitted` | internal/evaluate/evaluate.go:159-169 | From any reachable live state, without outside rollbacks, the most calls the generation can come to admit is the limit plus the counter's shortfall plus the rollbacks earlier generations owe: never more, and reachable within the instant |
| `AdmissionOverrun.OverrunExactlyWhenARollbackIsLate` | internal/evaluate/evaluate.go:159-169 | A live generation not lowered by a foreign rollback can come to admit more than the limit if and only if the limit is positive and a call of an earlier generation still owes its rollback |
| `AdmissionOverrun.LateRollbackAdmitsOneMore` | internal/evaluate/evaluate.go:162-163 | For every positive limit and every window some run without outside rollbacks admits one call more than the limit at a single instant |
| `RedisVelocity.RedisCounter.Increment` | internal/velocity/redis.go:56-66 | INCR then EXPIRE in whole seconds: one more than the present value, and the new TTL, or no key at all when the seconds are not positive |
| `RedisVelocity.RedisCounter.Rollback` | internal/velocity/redis.go:70-95 | The script's value clamped at zero; the clamp writes zero and drops the TTL |
| `RedisVelocity.KeysAgree` | internal/velocity/redis.go:50-52 | With the default prefix both counters keep a user's window under the same key |
| `RedisVelocity.StepSimulates` | internal/velocity/redis.go:56-112 | Each operation gives the same answer on both counters and keeps equal values, with equal expiry while positive |
| `RedisVelocity.CountersAgree` | internal/velocity/redis.go:56-112 | Both counters give the same answers on every timely sequence of operations whose windows are negative or positive whole seconds |
| `RedisVelocity.AgreeExactlyOnWholeSeconds` | internal/velocity/redis.go:56-66 | The two implementations are indistinguishable with a window if and only if it is negative or a positive number of whole seconds |
| `RedisVelocity.ConfiguredWindowsAgree` | internal/velocity/velocity.go:70-74 | With a window configured in seconds they are indistinguishable if and only if it is not zero |
| `Whitelist.MemoryStore.Add` | internal/whitelist/whitelist.go:135-143 | Stores under the joined key unless it exists |
| `Whitelist.MemoryStore.Update` | internal/whitelist/whitelist.go:167-175 | Overwrites only an existing key |
| `Whitelist.Service.Add` | internal/whitelist/whitelist.go:60-79 | Requires all three fields, refuses duplicates, otherwise adds a pending entry |
| `Whitelist.Service.Verify` | internal/whitelist/whitelist.go:88-107 | Turns an existing pending entry verified with its time, and otherwise reports why not, an entry verified before being returned with the error |
| `Whitelist.Service.Allowed` | internal/whitelist/whitelist.go:110-113 | True exactly for an entry that exists and is verified |
| `Whitelist.RefusedExactly` | internal/whitelist/whitelist.go:60-107 | An Add is refused exactly for a missing field or a key in use, a Verify exactly for a missing or an already verified entry, which is then returned |
| `Whitelist.EntryTellsItsHistory` | internal/whitelist/whitelist.go:60-107 | A verified entry holds the triple and note of its Add and the times of its Add and its Verify |
| `Whitelist.UsersCollideExactlyWhenNested` | internal/whitelist/whitelist.go:132 | Two users can reach one key if and only if one id is the other followed by a separator and more |
| `Whitelist.SharedDestination` | internal/whitelist/whitelist.go:132 | Users that nest share a key that Add accepts from the second of them |
| `Whitelist.CleanKeysInjective` | internal/whitelist/whitelist.go:132 | Separator-free users and chains make the joined key injective, whatever the address |
| `WhitelistRuns.WhitelistedExactlyWhenVerified` | internal/whitelist/whitelist.go:60-175 | Over every interleaving in which no two triples share a key, a triple is whitelisted exactly when its Add succeeded and later a Verify of it succeeded, and is present exactly when it was added |
| `WhitelistRuns.CleanTriplesAreApart` | internal/whitelist/whitelist.go:132 | Triples with separator-free users and chains share no key |
| `WhitelistRuns.RefinesExactlyWhenApart` | internal/whitelist/whitelist.go:60-175 | Every run over two triples tells the first of them right if and only if they are the same, have different keys, or are both refused by Add |
| `WhitelistRuns.NeverBackToPending` | internal/whitelist/whitelist.go:88-107 | Over every interleaving a verified entry stays verified |
| `Review.MemoryStore.Put` | internal/review/review.go:164-176 | Stores and appends to the order unless the id is empty or present, keeping list and map in step |
| `Review.MemoryStore.List` | internal/review/review.go:187-198 | The listing of a status holds items of that status only, all of them, as the filtered order |
| `Review.ListingIsTheFilteredOrder` | internal/review/review.go:187-198 | A listing is the insertion order with the unwanted items left out: climbing positions that cover exactly the wanted items |
| `Review.MemoryStore.Update` | internal/review/review.go:201-209 | Overwrites only an existing item and leaves the order alone |
| `Review.Service.Park` | internal/review/review.go:72-89 | Inserts a pending item, or reports an empty or duplicate id |
| `Review.Service.Resolve` | internal/review/review.go:95-123 | Resolves a pending item with assignee, resolution and time and hands the stored item to the notifier when there is one, or reports why not and changes nothing |
| `Review.RefusedExactly` | internal/review/review.go:72-123 | A Park is refused exactly for an empty or used id, a Resolve exactly for a resolution other than ALLOW and DENY, a missing item or a resolved one, and then nothing changes |
| `Review.ItemTellsItsHistory` | internal/review/review.go:72-123 | A resolved item holds the ids and time of its Park, and the assignee, resolution and time of its Resolve |
| `ReviewRuns.RunInv` | internal/review/review.go:72-209 | Over every interleaving the order list has no duplicates and names exactly the map's keys |
| `Review.FullListing` | internal/review/review.go:187-198 | The unfiltered listing is the insertion order |
| `Review.ListingsPartition` | internal/review/review.go:187-198 | The pending and the resolved listing partition the full one |
| `ReviewRuns.ResolvedOnceAndForAll` | internal/review/review.go:95-123 | With Resolves of an item serialised, a resolved item was resolved once and no field of it ever changes again |
| `ReviewRuns.OverlappingResolvesBothSucceed` | internal/review/review.go:99-118 | Two Resolves past their check on one item both succeed and the later write stands |
| `ReviewRuns.OverlapIsReachable` | internal/review/review.go:99-118 | Such a pair with opposite resolutions is reachable |
| `ReviewRuns.WinsInReach` | internal/review/review.go:99-118 | From every reachable state, letting pending writes through can bring an item to any number of successes if and only if its successes and its pending Resolves number that many |
| `ReviewRuns.SerialisedExactly` | internal/review/review.go:95-123 | No Resolve passed its check while another on the item was pending if and only if no item has two successes or pending Resolves that would make two |
| `Caps.Scan` | internal/caps/caps.go:110-114 | One pass returns the first index it accepts, or none |
| `Caps.MatchRule` | internal/caps/caps.go:109-126 | The three passes return the matching rule least by pass and index, and none only when no pass matches |
| `Caps.TierRuleFirst` | internal/caps/caps.go:109-114 | The first rule of the window for the tier alone is found before any other |
| `Caps.RailRuleNext` | internal/caps/caps.go:115-119 | Without one, the first rule for the rail that names no tier is found, whatever its asset |
| `Caps.AssetRuleLast` | internal/caps/caps.go:120-124 | Without that either, the first rule for the asset that names neither tier nor rail is found |
| `Caps.NoOtherRule` | internal/caps/caps.go:109-126 | What is found is one of the rules and of one of these kinds, and nothing is found only if there is none |
| `Caps.CapInForce` | internal/caps/caps.go:129-140 | A rule's positive cap comes before the default of the window, which is the daily one, the transaction one, or none |
| `Caps.OrderFreeExactlyWhenUnambiguous` | internal/caps/caps.go:109-126 | The rule found is the same under every rearrangement of the rules if and only if the deciding pass accepts copies of one rule only |
| `Caps.Evaluate` | internal/caps/caps.go:82-105 | No outcome without a positive cap; above the cap the rule's branch; at or above the near fraction a review; otherwise clear |
| `Caps.SeverityMonotone` | internal/caps/caps.go:82-105 | A larger amount never gets a milder outcome, whatever the near-cap fraction |
| `Caps.HighValue2FARequired` | internal/caps/caps.go:144-151 | True exactly when some rule of the rail demands 2FA at this amount |
| `Caps.ConversionIsLinear` | internal/caps/caps.go:155-161 | Conversion is linear in the amount and, for a foreign currency with a positive rate, in the rate; dollars are taken as they are |
| `Rego.CleanExactly` | policies/decisions.rego:9-69 | Allow without review or deny is one conjunction of facts about the input and the caps data |
| `Rego.AllowExclusiveExactlyWhenCapsApart` | policies/decisions.rego:9-69 | Allow excludes review and deny for every input if and only if the two caps are apart |
| `Rego.CleanDownwardClosed` | policies/decisions.rego:9-69 | A smaller amount, a smaller fraud score and a weaker 2FA demand keep a clean input clean |
| `Engine.OPAEngine.constructor` | internal/engine/engine.go:160-164 | The bundle is installed and compiled if it can be |
| `Engine.OPAEngine.Rebuild` | internal/engine/engine.go:168-179 | Policy and data are rebuilt together, or both kept when compilation fails |
| `Engine.OPAEngine.Swap` | internal/engine/engine.go:204-209 | The bundle is replaced always, the compiled policy only when it compiles |
| `Engine.OPAEngine.Evaluate` | internal/engine/engine.go:212-247 | The cached policy, or the bundle compiled on the spot, answers; errors of either kind are reported |
| `Engine.DecisionIsKnown` | internal/engine/engine.go:298-316 | The decision is allow, deny or manual_review, allow only for allow without review and deny, and deny exactly for deny |
| `Engine.RulesTellTheVerdict` | internal/engine/engine.go:355-367 | Each family of rules is listed, in full and once, exactly when its flag is set |
| `Engine.SwapHistory` | internal/engine/engine.go:168-209 | After any swaps the reported bundle is the latest, the policy in force that of the latest bundle that compiles, and there is none exactly when no bundle compiles |
| `Engine.HotReloader.ReloadOnce` | internal/engine/hotreload.go:87-124 | Swaps and counts exactly a fetched bundle with a new hash, a nonempty source and a source that compiles |
| `Engine.ReloadExactly` | internal/engine/hotreload.go:87-124 | After any polls, a fetched bundle with another hash and a nonempty compiling source is reported, decides with its own data and counts one swap; any other poll changes nothing |
| `Engine.ActiveHashIsTheLatestFit` | internal/engine/hotreload.go:87-124 | Over every poll history the active hash is that of the most recent bundle fit to run, or of the first bundle |
| `Engine.ReloaderKeepsBundleAndPolicyTogether` | internal/engine/hotreload.go:87-124 | From a compiling first bundle the policy in force is always the reported bundle's, and the swap count equals the changes of active hash |
| `Engine.ReportedDecidesExactlyWhenItCompiles` | internal/api/rules.go:47-50 | After any unchecked swaps the policy in force is the reported bundle's if and only if the last bundle swapped in compiles |
| `EngineRace.SnapshotAndVersionOrder` | internal/engine/engine.go:212-226 | With swaps anywhere the evaluation used the engine of a single instant, and evaluated version, rule versions in order, and stamped version climb along the swap history |
| `EngineRace.NoSwapNoSkew` | internal/evaluate/evaluate.go:197-212 | Without an intervening swap every version read is the one evaluated |
| `EngineRace.VersionsCanSkew` | internal/evaluate/evaluate.go:197-212 | A swap between the snapshot and the stamping shows in every rule's version, and a later one in the response's |
| `BundleStream.Keys` | internal/engine/engine.go:116-119 | Ranging over a map in any order lists each key once |
| `BundleStream.LeAtFirstDifference` | internal/engine/engine.go:370 | Names are ordered by their first difference, a prefix first |
| `BundleStream.WriteFrames` | internal/engine/engine.go:121-126 | Each name and content is written with its terminator, in list order |
| `BundleStream.HashedBytes` | internal/engine/engine.go:113-140 | The bytes fed to the hash are a function of the two maps, whatever the iteration order |
| `BundleStream.PairsOfStream` | internal/engine/engine.go:113-140 | The stream is the sources in the order of their names and then the data in that of theirs |
| `BundleStream.StreamDecodesExactly` | internal/engine/engine.go:113-140 | Decoding the stream gives back the sources and the data if and only if names and contents are NUL-free, every source is named .rego and no data key is |
| `BundleStream.KindsCollideWithoutSuffix` | internal/engine/engine.go:121-138 | Without the naming condition sources and data feed the same bytes |
| `BundleStream.NulContentsCollide` | internal/engine/engine.go:121-126 | A content holding NULs feeds the same bytes as two files |
| `VersionNumber.VersionToInt` | internal/db/audit.go:105-117 | A decimal version is its own number, any other the reduced FNV-1a state, within 1000000 to 9999999 |
| `VersionNumber.NumberExactly` | internal/db/audit.go:105-117 | A version that reads as an integer is that integer, any other is its FNV-1a state reduced into the seven-digit range |
| `VersionNumber.AtoiExactly` | internal/db/audit.go:106-109 | A version reads as an integer exactly if it is an optional sign and digits, at least one, within 64 bits |
| `VersionNumber.KnownStates` | internal/db/audit.go:111-115 | The states of the empty string and of "a" are those of 32-bit FNV-1a |
| `VersionNumber.AtoiReadsItoa` | internal/db/activate.go:72-88 | Printing and reading an integer gives it back |
| `VersionNumber.AbsorbIsABijection` | internal/db/audit.go:112-115 | Each FNV-1a step is undone by the inverse prime and undoes it, so it is a bijection of the states |
| `VersionNumber.OneByteChangesTheState` | internal/db/audit.go:111-115 | Strings of one length that differ in exactly one byte have different 32-bit states |
| `VersionNumber.StoredNumberReadsBack` | internal/db/activate.go:72-88 | For every version the stored number, printed and read back, is the same number |
| `Audit.SignedVerifies` | internal/audit/audit.go:85-118 | A record that can be signed verifies afterwards, whatever signature it carried before |
| `Audit.TamperEvident` | internal/audit/audit.go:85-118 | With an encoder that tells records apart and signatures that bind, of all records that carry a signed record's signature that record alone verifies |
| `Audit.DatedOnce` | internal/audit/audit.go:206-210 | A record keeps the date it came with and gets the clock's otherwise |
| `Audit.MemoryStore.Put` | internal/audit/audit.go:273-281 | Stores by id unless the id is empty or the store fails |
| `Audit.MemorySink.Publish` | internal/audit/audit.go:316-324 | Appends unless the sink fails |
| `Audit.Service.constructor` | internal/audit/audit.go:141-156 | An empty queue, with 1024 places when the size given is not positive |
| `Audit.Service.WithSyncPersist` | internal/audit/audit.go:169-174 | Switches to the synchronous mode and changes nothing else |
| `Audit.Service.Emit` | internal/audit/audit.go:205-232 | Dates, signs, persists first in the synchronous mode, then enqueues or counts a drop, with the matching result |
| `Audit.EmitExactly` | internal/audit/audit.go:205-232 | When each result of an Emit comes about, and that only an accepted record is queued and only a failed or refused one counted as dropped |
| `Audit.Service.WorkOne` | internal/audit/audit.go:181-197 | One turn of the worker: the head is stored in the asynchronous mode, then published, a failure of either counted as a drop |
| `Audit.WorkerPublishesAll` | internal/audit/audit.go:181-197 | A worker left to itself publishes every queued record in order, stores it in the asynchronous mode, and drops none |
| `AuditRuns.StepKeeps` | internal/audit/audit.go:177-241 | Every step of every interleaving keeps the balance, the order, provenance, storing first and parking by calls |
| `AuditRuns.Conservation` | internal/audit/audit.go:177-241 | In every reachable state the signed Emit calls are published, dropped, queued, with the worker, or in a running Emit |
| `AuditRuns.QueueIsBounded` | internal/audit/audit.go:225-231 | In every reachable state the queue holds no more than its capacity |
| `AuditRuns.OfferTakenExactlyWhenRoom` | internal/audit/audit.go:225-231 | From every reachable state an offer is taken exactly while there is room and is a drop otherwise |
| `AuditRuns.SinkFollowsEnqueueOrder` | internal/audit/audit.go:177-202 | The sink is a subsequence of the enqueue order |
| `AuditRuns.PublishedWasStoredAndVerifies` | internal/audit/audit.go:177-232 | Every stored, queued or published record verifies, and with a store nothing is published that was not stored |
| `AuditRuns.DurableBeforePark` | internal/evaluate/evaluate.go:232-257 | In the synchronous mode every call that returned without error, dropped or not, is stored, every parked id is stored, and with fresh ids the stored record is that one and says manual_review |
| `AuditRuns.ParkedBeforeStoredOtherwise` | cmd/policy-engine/main.go:164-166 | In any other mode a decision can be parked while the store is empty |
| `AuditRuns.ParkedUnstoredExactlyUnlessDurable` | cmd/policy-engine/main.go:164-166 | Some run parks an id that is not stored if and only if the mode is not the synchronous one with a store |
| `AuditClose.StoppedForGood` | internal/audit/audit.go:198-241 | Once the worker has stopped the sink never grows, the queue is what it was followed by every record taken since, and the balance is what remains queued or in a running Emit |
| `AuditClose.DrainedExactlyWhenEmptyAtStop` | internal/audit/audit.go:198-241 | After the stop everything ever taken has been handled if and only if the queue was empty at the stop and no record was taken since |
| `AuditClose.CloseCanStrand` | internal/audit/audit.go:237-241 | The worker can stop with a record still queued |
| `AuditRuns.EmitIsThreeSteps` | internal/audit/audit.go:205-232 | From any state an uninterrupted Emit has the effect of the interleaved sign, persist and offer steps, cut short by the first that fails |
| `AuditRuns.WorkIsThreeSteps` | internal/audit/audit.go:181-197 | An uninterrupted turn of the worker has the effect of the take, store and publish steps |
| `Gate.Service.CountCall` | internal/evaluate/evaluate.go:159-169 | The call is counted, found over exactly when the count is above the daily cap of the configuration, and then taken back |
| `GateFacts.OverDailyCapExactly` | internal/evaluate/evaluate.go:159-169 | A counted call is over the limit exactly when the count is above the configured daily cap, and always if that is negative |
| `GateFacts.RoomExactly` | internal/evaluate/evaluate.go:162-163 | There is room for a call exactly while the count with it stays within the configured daily cap |
| `GateFacts.RoomByHistory` | internal/evaluate/evaluate.go:162-163 | The same against the caller's history of increments and rollbacks |
| `Gate.Service.Judge` | internal/evaluate/evaluate.go:127-205 | The five stages settle decision, reasons, rules and score as the specification says and touch only the caller's counter |
| `Gate.Service.CapsAndPolicy` | internal/evaluate/evaluate.go:171-205 | Cap outcome first, then the engine's answer, with rules stamped by version |
| `Gate.Service.Finalize` | internal/evaluate/evaluate.go:210-258 | Tally, audit record, error return that skips parking, and parking with the gauge |
| `Gate.Service.Evaluate` | internal/evaluate/evaluate.go:117-206 | The whole new state and outcome as a function of the whole old state and the request, invalid requests changing nothing |
| `GateDecision.AllowExactlyWhenAllStagesPass` | internal/evaluate/evaluate.go:127-205 | Allow if and only if source, whitelist, velocity, cap and policy all pass |
| `GateDecision.DenyExactlyWhenAStageDenies` | internal/evaluate/evaluate.go:127-205 | Deny if and only if one of the first three stages refuses, the cap denies, or the policy denies below the near-cap band |
| `GateDecision.LastReasonNamesTheStage` | internal/evaluate/evaluate.go:136-200 | The last reason is a stage's own, from the session to the engine error, exactly when that stage stopped the call |
| `GateFacts.SourceAcceptedExactly` | internal/evaluate/evaluate.go:133-137 | The source is accepted exactly with a session and, if a rule of the rail demands it at this amount, the second factor |
| `GateFacts.WhitelistStageExactly` | internal/evaluate/evaluate.go:145-152 | Over every interleaving of Adds and Verifies the stage passes exactly when the caller's Add of the destination's chain and address was followed by its Verify |
| `GateFacts.TxCapExactly` | internal/caps/caps.go:82-140 | The transaction cap is the chosen rule's if positive and the default otherwise, a missing tier being the first |
| `GateFacts.AmountExactly` | internal/caps/caps.go:155-161 | The amount judged is the parsed amount times the rate, unless it is in dollars or has no positive rate |
| `GateFacts.TrailExactly` | internal/evaluate/evaluate.go:127-205 | The whole list of reasons, by what stopped the call |
| `GateFacts.ScoreExactly` | internal/evaluate/evaluate.go:127-205 | The score, by what stopped the call, and the policy's own otherwise |
| `GateFacts.RulesBeforePolicy` | internal/evaluate/evaluate.go:171-200 | A call stopped before the policy lists the cap's rule exactly if it came that far |
| `GateFacts.RulesOfPolicy` | internal/evaluate/evaluate.go:171-205 | A call the policy answers lists the cap's rule and then what the policy fired, with the engine's version |
| `GateDecision.DecisionIsOneOfThree` | internal/evaluate/evaluate.go:127-205 | Every judgement is allow, deny or manual_review |
| `GateDecision.NetCounterChange` | internal/evaluate/evaluate.go:159-169 | The caller's reading grows by one exactly when the call passes the velocity stage, other counters are untouched, and even a refused call restarts the TTL |
| `GateDecision.VelocityStageIsEnterAndCompensate` | internal/evaluate/evaluate.go:159-169 | An uninterrupted velocity stage has the effect of the interleaved protocol's steps |
| `GateDecision.EngineNeverSeesUnauthenticated` | internal/evaluate/evaluate.go:136-196 | Whenever the engine is asked the policy's whitelist and 2FA clauses cannot fire |
| `GateDecision.AllowExactlyUnderSeedPolicy` | policies/decisions.rego:9-69 | Under the seed policy, allow as one conjunction of facts about request, stores and configuration |
| `GateSeed.DenyExactlyUnderSeedPolicy` | policies/decisions.rego:40-69 | Under the seed policy, deny exactly for an early refusal, a denying cap, or a high fraud score, a sanctioned verdict, an unverified customer or an amount above the daily cap |
| `GateSeed.ReviewExactlyUnderSeedPolicy` | policies/decisions.rego:28-38 | Under the seed policy, manual_review exactly for the cap's review or its near band, or for the mid fraud band, the near-daily band, a verdict that is not clean or an amount beyond the policy's transaction cap, when nothing denies |
| `GateSeed.ScoreUnderSeedPolicy` | policies/decisions.rego:71-84 | Under the seed policy the score is the mean of the fraud score and the two weights, or zero for an unknown verdict |
| `GateSeed.EngineIsAskedAboutTheRequest` | internal/evaluate/evaluate.go:186-196 | The document the engine is asked about is the request, with its amount in dollars |
| `GateDecision.SmallerAmountIsSmallerInUSD` | internal/caps/caps.go:155-161 | Conversion keeps the order of amounts of one currency and rate |
| `GateDecision.AllowIsDownwardClosed` | internal/evaluate/evaluate.go:137-205 | An allowed request stays allowed from the same state with a smaller amount and fraud score, for every configuration and data |
| `GateRuns.UserIsolation` | internal/evaluate/evaluate.go:117-206 | Deleting every other user's operations from a run leaves a user's counter, whitelist and every outcome it was told unchanged, if no id that changes the whitelist nests with its own |
| `GateRuns.LeaksExactlyWhenNested` | internal/whitelist/whitelist.go:132-143 | A user's additions never open a destination to a given id if and only if that user is the empty id or a different id that does not nest with it |
| `GateRuns.LedgerReconciles` | internal/evaluate/evaluate.go:118-125 | Over every run, audit errors included, evaluations are the sum of the three decision counts and the gauge is the number of items ever parked |
| `GateRuns.OperationsTakeEffect` | internal/whitelist/whitelist.go:60-107 | An Add with its Verify whitelists, a rollback lowers, a swap reports, a Resolve resolves and a worker's turn takes the head, within a run |
| `GateOutcome.CountersCountDecisions` | internal/evaluate/evaluate.go:214-221 | Over every run each counter counts the well-formed evaluations judged with its decision |
| `GateOutcome.RejectedExactly` | internal/evaluate/evaluate.go:261-278 | A request is rejected, and changes nothing, exactly when a required field is blank or the amount is no number |
| `GateOutcome.ResponseIsTheJudgement` | internal/evaluate/evaluate.go:223-230 | The response, with an error or without, is the judgement under the version reported and the id given |
| `GateOutcome.RecordIsTheJudgement` | internal/evaluate/evaluate.go:232-244 | The record holds the judgement, the id, the version, the rules' ids and the hash of the ten audited fields |
| `GateOutcome.HashTellsRequestsApart` | internal/evaluate/evaluate.go:285-298 | With a hash that tells apart, two records have one hash exactly for requests that agree in the ten fields |
| `GateOutcome.ErrorExactlyWhenNotAudited` | internal/evaluate/evaluate.go:245-247 | An evaluation comes back with an error exactly when its record cannot be signed or, in the synchronous mode, stored |
| `GateOutcome.ParksExactly` | internal/evaluate/evaluate.go:250-255 | Exactly a manual_review without error is parked, pending, under its new id, and no other item changes |
| `GateRuns.EvaluationIsRecorded` | internal/evaluate/evaluate.go:232-248 | In the synchronous mode an evaluation without error has stored a verifying record of the decision, reasons and version it returned |
| `GateSteps.UninterruptedIsEvaluated` | internal/evaluate/evaluate.go:117-258 | The accesses of a call, with nothing in between and at one clock reading, add up to the service's own evaluation |
| `GateAlone.AloneIsEvaluated` | internal/evaluate/evaluate.go:117-258 | After any interleaving, a call that begins and advances alone ends in the state and with the outcome of the service's own evaluation, other calls in flight untouched |
| `GateAlone.OtherIsTheOperation` | internal/evaluate/evaluate.go:117-258 | After any interleaving an operation among the calls acts as it does alone and moves no call |
| `GateInterleaving.DecisionIsJustified` | internal/evaluate/evaluate.go:127-205 | Over every interleaving a call's decision, reasons, rule ids and score are those of one evaluation on the whitelist, the counter and the engine as they were at three moments after its start, in this order, at the clock of the moment the counter was read |
| `GateAdmission.GateFollowsProtocol` | internal/evaluate/evaluate.go:159-169 | Over every interleaving of any users' calls, a user's counter goes through a run of the admission protocol: same cell and life, the calls over the limit are the rollbacks owed to each life, the rollbacks that strayed are the foreign ones, and the calls past the velocity stage are the log |
| `GateAdmission.PromptMeansNoStrays` | internal/evaluate/evaluate.go:159-169 | If nobody rolls back from outside and no call finds the counter dead while another owes its rollback, no rollback strays |
| `GateAdmission.GateRespectsRollingWindow` | internal/evaluate/evaluate.go:159-169 | Over every interleaving the calls of a user past the velocity stage in any stretch no longer than the window number at most the limit plus the gate's own count of rollbacks strayed into their life, and at most the limit under the same two conditions |
| `GateAdmission.DailyCapBoundsCalls` | internal/evaluate/evaluate.go:159-169 | Under the same two conditions those calls never outnumber the configured daily cap, and there are none below a cap of one |
| `GateOverrun.GateMakesMoves` | internal/evaluate/evaluate.go:117-169 | Whatever the admission protocol can do in an instant, calls of a user with a request that reaches the counter can do at the gate, from any reachable state |
| `GateOverrun.GateOverrunExactlyWhenARollbackIsLate` | internal/evaluate/evaluate.go:159-169 | While a user's counter lives and nothing has strayed into its life, calls of the user can take it past the limit if and only if the limit is positive and a call of an earlier life still owes its rollback |
| `GateLedger.LedgerBalances` | internal/evaluate/evaluate.go:118-258 | Over every interleaving the decisions counted are the evaluations counted plus the calls between the two counts, and the items ever parked are the gauge plus the calls about to move it |
| `GateLedger.QuietLedgerReconciles` | internal/evaluate/evaluate.go:118-258 | Whenever every call has come back the counts and the gauge reconcile exactly |
| `GateLedger.CountersCountCalls` | internal/evaluate/evaluate.go:214-221 | Over every interleaving each counter is the number of calls counted with its very decision |
| `GateIsolation.InterleavedIsolation` | internal/evaluate/evaluate.go:117-258 | Deleting every step of other users from an interleaving leaves a user's counter, whitelist and every call of the user, at every phase and with its outcome, unchanged, if no id that changes the whitelist nests with its own; whether the item was parked is left to the next two |
| `GateParking.ParkingIsolation` | internal/evaluate/evaluate.go:250-255 | If a user's calls use ids no other call uses, then every call of the user is unchanged, parked or not, and so is every item under those ids |
| `GateParkingIds.DisturbsExactlyUnderOneId` | internal/review/review.go:164-176 | Calls under one id never change a call under another, over every interleaving of every gate, if and only if the latter id is empty or the two differ |
| `GateDurability.InterleavedDurability` | internal/evaluate/evaluate.go:232-257 | Over every interleaving in the synchronous mode, the id of every call persisted, offered, parked or returned without error is stored, and so is every id in the review queue |
| `GateDurability.StoredRecordIsTheCalls` | internal/evaluate/evaluate.go:232-248 | With fresh ids the stored record verifies and is the call's own: request, decision, reasons, rules, version and score |
| `GateDurability.StoredRecordIsTamperEvident` | internal/audit/audit.go:85-118 | A record that carries the stored signature and verifies is the stored record, and so tells of the call's own request and decision |

## Left out

- HTTP and gRPC handlers, JWT validation and TLS: transport; the session flag is an input.
- SQL stores, migrations and database transactions: foreign calls; store failures are inputs here.
- OPA, Kafka, Ed25519, SHA-256, JSON and float parsing internals: opaque parameters.
- Bundle download, tickers, timeouts and the notifier's retries: I/O with a fixed bound.
- Floating-point rounding, NaN and infinities: amounts and scores are reals.
- Overflow of 64-bit counters and times, and of the conversion of a huge daily cap.
- Errors of the Redis counter and of whitelist reads, which the gate ignores.
- Whitelist listing, metrics rendering and environment configuration: only easy members.
- Memory entries shared by pointer: the counter's entries are values in the map, since no reference to one leaves the counter.
- Gate.Service.Evaluate: reads the clock once and runs without interruption; `GateSteps` cuts it at every access, with a clock reading for each, and the modules on top of it interleave the pieces.
- GateInterleaving: takes Verify, Resolve and a turn of the worker as single steps among the evaluations; `WhitelistRuns`, `ReviewRuns` and `AuditRuns` split them.
- GateIsolation.InterleavedIsolation: leaves out whether a call's item was parked, which `GateParking.ParkingIsolation` promises under its condition on ids.
- GateInterleaving.DecisionIsJustified: leaves out the versions the rules are stamped with, which are read one by one and ordered in `EngineRace`.
- RedisVelocity.RedisCounter.Increment: takes INCR and EXPIRE, two commands of one call, as one step at one instant.
- Review.Service.Resolve: the notifier's delivery, which may fail without effect, ends at what it is handed.
- Audit.Service.WorkOne: is one turn of the worker's endless loop; whole runs of turns are in `AuditRuns`.
