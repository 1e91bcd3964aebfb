# Manooch, modelled and proved

Manooch is a price feed. It keeps websockets to a venue open, turns what arrives into exact
fixed-point numbers, publishes them to Redis under one key per stream, and says of every stream
whether its price may be trusted. This project models the parts of it that decide things, and
proves what those parts are for.

| part | files |
|---|---|
| decimals: the grammar, the scanner, the printer | `Decimal.dfy`, `Price.dfy`, `PriceGrammar.dfy`, `PriceSaturation.dfy`, `PriceFormat.dfy` |
| the request budget, metered by GCRA (ITU-T I.371, Annex A) | `Gcra.dfy`, `RateLimit.dfy` |
| the status tracker and what it publishes | `Health.dfy`, `HealthCoherence.dfy`, `HealthSummary.dfy`, `HealthReasons.dfy`, `HealthHistory.dfy`, `HealthPublish.dfy`, `HealthOverlap.dfy`, `HealthTracker.dfy` |
| REST fallback | `Fallback.dfy`, `FallbackWatcher.dfy`, `FallbackLocks.dfy` |
| supervision: quorum, mailbox, task | `Quorum.dfy`, `QuorumLocks.dfy`, `SocketRunner.dfy`, `Mailbox.dfy`, `Tasks.dfy` |
| the circuit breaker | `Breaker.dfy` |
| names: keys, symbols, plans | `Core.dfy`, `Keys.dfy`, `Symbols.dfy`, `Plans.dfy`, `Planner.dfy` |
| shared ground | `Wrappers.dfy`, `Text.dfy`, `Order.dfy`, `Sets.dfy` |

Two step sizes are used. Where the code promises something only when an event runs from end to end,
a step is a whole event (`Fallback`, `Quorum`, `HealthPublish`); where it promises something under
any schedule, a step is one critical section or one channel operation (`FallbackLocks`,
`QuorumLocks`, `Mailbox`, `Tasks`), or the writes of two events come in any order (`HealthOverlap`).
The files at the finer step also say exactly when what the coarser one promises survives.

An object whose fields the code changes in place is a class here, and each of its methods is proved
to take the object's state through a specification function: `HealthTracker.Tracker` through
`Health.Update`, `Health.Register` and `Health.Beat`, `FallbackWatcher.Watcher` through
`Fallback.Step`, `RateLimit.LocalLimiter` through `Gcra.Step`, `SocketRunner.Runner` through
`Quorum.Step`, `Breaker.Breaker` through its own step functions. What the code promises is then
proved about those functions, over every run.

Times are integers of nanoseconds. Every run is on a clock that does not go back where a member says
`ClockMonotone`, `Obeys` or `Run`; the other members need no clock at all.

## What turned out not to hold as written

Each of these has its exact condition, and an input or a run on which it fails.

- The scanner freezes an exponent once it passes 2^30. That changes the answer to a string exactly
  when the exponent was frozen, the digits are not zero, their sign is not refused, and the true and
  the frozen shift do not meet the same refusal (`PriceSaturation.SaturationExact`). No string shorter
  than 2^30 - 64 is affected (`Price.SaturationHarmless`); just past that a number beyond every scale
  is read as a small one (`Price.SaturationMisreads`).
- No window of the budget holds more than twice its capacity, but only when the window divided by the
  capacity leaves less than one interval over (`RateLimit.TwiceCapacityExact`).
- A clock that is off by the smallest 64-bit integer is never taken for off, since its negation wraps
  (`Apart` in `HealthReasons.dfy`, with `HealthReasons.StatusExact`).
- Reading symbols back, Binance takes `BUSD`, `TUSD` or `FDUSD` for the quote of a USD pair whose base
  ends that way (`Symbols.BinanceSplits`).
- A poller asks whether it still owns its stream before it writes a value, and not before it reports a
  failure. A poll that was in flight when a message ended the outage marks the recovered stream as
  failed exactly when it could not fetch or had nothing to write (`Fallback.LateFailureMarks`), and
  runs do this (`Fallback.LateFailureReachable`). Nobody polls the stream then and it is not expired,
  so no message, heartbeat or poll begun since clears the mark: it stays stale until its key next expires
  (`Fallback.StuckUntilExpiry`), and the message after that clears it (`Fallback.ExpiryThenMessage`).
  "One message ends any outage" therefore holds exactly when the stream is polled, expired or without
  such a mark, or metadata or an open circuit come first (`Fallback.MessageRecovers`).
- Inserting a poller and telling the tracker are two critical sections. When the last word on the stream
  between them is a message, and only then, it is left on fallback with nobody polling it
  (`Fallback.OverlapEngages`).
- So are asking whether the stream is still owned and writing the value. A write that fails after a message
  has come in between, and only then, leaves its mark on a stream nobody polls
  (`Fallback.OverlapWriteFails`); and one that is accepted goes out from REST as healthy exactly when its
  stream has meanwhile recovered and the venue is well (`Fallback.OverlapServes`).
- Marking an expiry and starting to poll are two more. Polled streams are expired all along exactly when
  no poller is started for a stream whose expiry no longer stands (`FallbackLocks.PolledExpiredExact`,
  `FallbackLocks.StraysExact`); a message in between does that (`FallbackLocks.OverlapPollsRecovered`).
- Deciding to redial and closing are two as well. A connection other than the one decided on is closed
  exactly when one came up in between and is still up (`QuorumLocks.HitsAnotherExact`); and redials are a
  grace period apart when something took the first one's connection down before the second was decided
  (`QuorumLocks.DecisionsApart`), and need not be apart otherwise (`QuorumLocks.DecisionsTogether`).
- Snapshots are written after the tracker's lock is given up. A consumer stays in sync through two events
  that overlap exactly when no key both moved had the first event's write last
  (`HealthOverlap.OverlapExact`), so in every order exactly when they move no key in common
  (`HealthOverlap.OverlapHarmless`); the next heartbeat mends it (`HealthPublish.BeatInSync`).
- Prices of one stream are published in order under every schedule exactly when at most one goroutine
  consumes it (`Mailbox.PublishedInOrderExact`); one given up on may publish an older price after a newer
  one (`Mailbox.LeakedPublishesLate`).
- The plans depend on nothing but which streams are asked for exactly when no two share both symbol and
  channel (`Plans.SettledExact`).

## Model

| member | source | states |
|---|---|---|
| Price.ScanSound | pkg/price/price.go:87-174 | what the scanner reads is a well-formed numeral that spells exactly the string it was read from |
| Price.ScanComplete | pkg/price/price.go:87-174 | every well-formed numeral is found, so no string has two readings |
| Price.SuccessExact | pkg/price/price.go:87-215 | parsing answers v exactly when the string is in the grammar, its sign is allowed, and the rational number it denotes is v units of the scale with v in range |
| Price.RefusalExact | pkg/price/price.go:87-215 | each error means exactly one thing: an empty string; a sign if any and nan, inf or infinity in any case; no numeral at all; a negative number where none is allowed; a number that is no integer at the scale; an integer too large |
| PriceGrammar.GrammarExact | pkg/price/price.go:87-174 | character by character, a string has a reading exactly when it is a sign if any, figures with or without a point, at least one of them, and an exponent in either case if any |
| PriceGrammar.DenotesExact | pkg/price/price.go:111-180 | a numeral denotes the one number that, times ten for each place and as often as a negative exponent says, is its figures with their sign, times ten as often as a positive one says |
| PriceGrammar.WholeNumbers | pkg/price/price.go:20-31 | a whole number is that many times 10^11, 10^8 or 10^12 units as a price, a size or a rate, unless an int64 does not hold that |
| Price.MovedIsJudge | pkg/price/price.go:176-215 | dropping, padding and range-checking decimal digits gives the answer that exact rational arithmetic gives |
| Price.SaturationHarmless | pkg/price/price.go:58-60 | freezing the exponent never changes the answer for a string shorter than 2^30 - 64 |
| Price.SaturationMisreads | pkg/price/price.go:58-60 | just past that length it does: a string that denotes a number too large is read as a small one; `PriceSaturation.SaturationExact` says of which strings that is so |
| PriceSaturation.SaturationExact | pkg/price/price.go:58-215 | for every string and scale the scanner's answer is what the string means exactly when it spells no number, its exponent was not frozen, its digits are zero, its sign is refused, or the true and the frozen shift meet the same refusal |
| PriceSaturation.MovedRefusals | pkg/price/price.go:182-214 | a shift is refused for lost precision exactly when it drops more digits than there are trailing zeros, and as out of range exactly when it drops none that count and leaves more than 19 digits, or 19 that are too large |
| PriceSaturation.MovedAlike | pkg/price/price.go:182-214 | two different shifts of the same digits give the same answer exactly when both lose precision or both leave too much |
| Price.Parse | pkg/price/price.go:87-215 | for every string, of any length, the loops give exactly what the digit arithmetic with the frozen exponent gives |
| Price.ParseAt | pkg/price/price.go:58-79 | for every string shorter than 2^30 - 64, parsing answers what the number the string denotes calls for |
| Price.ParseFrom | pkg/price/price.go:103-215 | the scanner past its sign agrees with the digit arithmetic for strings of any length |
| Price.ScanSignificand | pkg/price/price.go:111-146 | the digit loop keeps the significant digits and counts those after the point, and accepts exactly the significands |
| Price.FoldExponent | pkg/price/price.go:148-172 | the exponent loop accepts exactly the exponents and gives their value, frozen past the limit |
| Price.MoveDigits | pkg/price/price.go:174-214 | the tail of the scanner: zero is zero at every exponent, then sign, then drop or pad, then range |
| Price.ParsePrice | pkg/price/price.go:63-66 | a price is parsed at its own scale and refuses a negative number |
| Price.ParseSize | pkg/price/price.go:69-72 | a size is parsed at its own scale and refuses a negative number |
| Price.ParseRate | pkg/price/price.go:76-79 | a rate is parsed at its own scale and may be negative |
| PriceFormat.PrintedUnits | pkg/price/price.go:219-247 | what is printed denotes exactly v units of the scale |
| PriceFormat.RoundTrip | pkg/price/price.go:217-247 | printing and parsing gives v back, except for the negative values unsigned types refuse and the smallest int64 |
| PriceFormat.CanonicalUnique | pkg/price/price.go:217-247 | a number has one numeral without redundant zeros |
| PriceFormat.FormatInjective | pkg/price/price.go:217-247 | different values never print alike |
| PriceFormat.FormatCanonical | pkg/price/price.go:217-247 | printing an accepted string gives the one canonical numeral of its number, so two accepted strings print alike exactly when they denote the same number |
| PriceFormat.CompareOrders | pkg/price/price.go:280-289 | comparing parsed values orders the decimals themselves |
| Gcra.BoundAppend | internal/ratelimit/local.go:165-192 | a grant may be appended exactly when every run of grants up to it has been paid for within one burst |
| Gcra.GreedySlot | internal/ratelimit/local.go:178-184 | the slot given is the earliest that keeps the window bound: any later one does, no earlier one does |
| Gcra.RefusalExact | internal/ratelimit/local.go:185-187 | a request is refused exactly when no slot up to its deadline keeps the bound |
| Gcra.RunKeepsBound | internal/ratelimit/local.go:165-192 | in every run, refused and abandoned requests included, one timestamp holds all the limiter needs of its whole log |
| Gcra.RunStartsInOrder | internal/ratelimit/local.go:165-192 | slots open in the order they were asked for |
| Gcra.RunLeakyRefined | internal/ratelimit/local.go:165-217 | the timestamp refines a bucket that drains a nanosecond per nanosecond: same level at every moment, and a request waits just for its overflow |
| RateLimit.ValidExact | internal/ratelimit/ratelimit.go:110-123 | a bucket is enforceable exactly when each operation gets at least a nanosecond |
| RateLimit.ServedWithinBurst | internal/ratelimit/local.go:165-192 | in every run any consecutive grants cost no more time than they span, plus one full bucket |
| RateLimit.WindowHolds | internal/ratelimit/local.go:165-192 | no window holds more than twice the capacity and what the remainder of the division allows |
| RateLimit.WindowFills | internal/ratelimit/local.go:165-192 | that limit is reached, by two bursts and single units asked for at once |
| RateLimit.TwiceCapacityExact | internal/ratelimit/ratelimit.go:110 | twice the capacity bounds every window of every run exactly when the floored interval loses less than one interval |
| RateLimit.UsedExact | internal/ratelimit/local.go:208-217 | a request is served without waiting exactly when it fits in capacity less used |
| RateLimit.UsedWithin | internal/ratelimit/local.go:208-217 | a bucket never reads as less than empty or more than full |
| RateLimit.UsedOnly | internal/ratelimit/local.go:208-217 | the units in use are the one number from none to the capacity for which just what is left goes through at once |
| RateLimit.LocalLimiter.Advance | internal/ratelimit/local.go:169-191 | the arithmetic of a reservation on the timestamp |
| RateLimit.LocalLimiter.Reserve | internal/ratelimit/local.go:165-192 | takes the next slot of one kind or refuses, and a refusal changes nothing |
| RateLimit.LocalLimiter.InUse | internal/ratelimit/local.go:195-217 | the units in use, partly spent ones included and never more than the capacity; nothing for a kind without a budget |
| RateLimit.LocalLimiter.Allow | internal/ratelimit/local.go:124-160 | refuses, waits or permits in the order the code does, and a slot stays spent when the wait is cut short |
| Health.SocketIDs | internal/health/health.go:595-607 | only sockets of registered streams are listed, and never the empty name |
| HealthCoherence.MutateTouches | internal/health/health.go:238-459 | an event leaves alone every stream outside the set it returns, and all that such a stream's status depends on |
| HealthCoherence.UpdateCoherent | internal/health/health.go:639-693 | after any event every cached status of stream, instrument and venue is what a recompute gives |
| HealthCoherence.RegisterCoherent | internal/health/health.go:174-216 | registering a stream keeps every other cached status current |
| HealthCoherence.BeatCoherent | internal/health/publish.go:44-53 | the heartbeat keeps every cached status current |
| HealthCoherence.RunCoherent | internal/health/health.go:639-693 | the same after every run of registrations, events and heartbeats |
| HealthCoherence.TimeOnlyWorsens | internal/health/health.go:492-535 | time alone moves only a stream on fallback, and never for the better |
| HealthCoherence.CacheReads | internal/health/health.go:492-535 | after any run a stream off fallback has exactly the status a recompute gives now, and one on fallback at least as bad |
| HealthCoherence.BeatRestores | internal/health/publish.go:44-53 | a heartbeat leaves every stream exactly as a recompute finds it |
| HealthSummary.WorstExact | internal/health/health.go:568-576 | an instrument is as bad as its worst channel and names the first registered of those as bad; it is healthy exactly when none is worse |
| HealthSummary.VenuePhase | internal/health/health.go:538-563 | walking the socket list finds an open or unconnected socket exactly when some registered stream is on one that has a name |
| HealthSummary.VenueCovers | internal/health/health.go:538-563 | the venue is never reported better off than metadata, socket and clock make of any of its streams, exactly unless that stream has no socket and a state reported under the empty name is worse than all the venue looks at |
| HealthSummary.VenueEarned | internal/health/health.go:538-563 | with nothing leaked, some stream is at least as badly off as the venue is reported |
| HealthSummary.OwnTrouble | internal/health/health.go:492-535 | a stream is never better off than the venue makes it, and exactly as well when it has no trouble of its own |
| HealthReasons.StatusExact | internal/health/health.go:492-535 | a stream is stale exactly when some trouble it has says to stop, healthy exactly when it has none, degraded otherwise, and the reason given is that of its foremost trouble |
| HealthReasons.OverlongExact | internal/health/health.go:507-511 | where nothing else says to stop, a fallback makes its stream stale exactly once it has gone on for as long as allowed, whatever it serves |
| HealthReasons.VenueStopped | internal/health/health.go:538-552 | the venue is stale for want of metadata, then an open circuit, then its clock, and for nothing else; it names the open socket of the stream registered first |
| HealthReasons.VenueWarned | internal/health/health.go:553-563 | otherwise it is degraded for leaks, then for the socket not connected whose stream was registered first, then for its clock |
| HealthReasons.LeadingSocket | internal/health/health.go:595-607 | walking the socket list finds the socket in a phase whose stream was registered first |
| HealthHistory.StreamRemembers | internal/health/health.go:238-367 | after any run a stream is expired, rejected, failed and why, on fallback, and last heard of as the last step to speak of each said |
| HealthHistory.FallbackBegan | internal/health/health.go:326-337 | a fallback under way began when it was engaged while off and has not ended since; engaging it again does not move its start |
| HealthHistory.SharedRemembers | internal/health/health.go:379-459 | after any run metadata, with the last reason why not, the clock's skew with its sign and the leaks are as last reported; metadata only where it is required |
| HealthHistory.MetadataGate | internal/health/health.go:158-166 | a venue that requires metadata is without it, for that reason, until it is first reported well, and no other venue ever is |
| HealthHistory.SocketRemembered | internal/health/health.go:397-410 | a socket's phase and reason are as last reported |
| HealthHistory.DeclaredClean | internal/health/health.go:174-198 | a stream starts clean on a socket that is dialling if nothing is known of it, and declaring it again changes nothing |
| HealthHistory.DeclaredListed | internal/health/health.go:174-216 | a stream is listed last under its instrument, which is new at the end with the name given and its own health key, or keeps both |
| HealthHistory.KnownExact | internal/health/health.go:169-198 | the streams known are exactly those declared: no event makes one |
| HealthHistory.CountsExact | internal/health/health.go:309-421 | restarts and reconnections are counted once each |
| HealthPublish.MovesExact | internal/health/health.go:657-693 | the batch holds exactly the instruments whose verdict changed, each with its new verdict |
| HealthPublish.PublishesChanges | internal/health/health.go:657-693 | an event publishes a key exactly when the verdict under it changed |
| HealthPublish.UpdateWritesAll | internal/health/publish.go:163-176 | nothing an event moves is withheld for want of a status |
| HealthPublish.WriteExact | internal/health/publish.go:163-176 | every snapshot with a status is written as often as it came, and none without |
| HealthPublish.UpdateInSync | internal/health/health.go:639-693 | a consumer that was in sync stays in sync through any event |
| HealthPublish.BeatInSync | internal/health/publish.go:44-70 | one heartbeat brings a consumer into sync, whatever it held before |
| HealthPublish.ReplayInSync | internal/health/publish.go:44-70 | after registration and one heartbeat, replaying what was published gives the tracker's verdicts after every step |
| HealthPublish.DistinctKeysFor | internal/health/health.go:202-216 | health keys are distinct exactly when no two instruments share market type and symbol |
| HealthPublish.HealthKeysOwn | internal/health/health.go:202-216 | an instrument's health key is no data key of another channel, and the venue's is spelled as documented |
| HealthOverlap.OverlapExact | internal/health/health.go:639-649 | for any two events and any order of their writes, a consumer that was in sync is in sync after both exactly when no key both moved had the first event's write after the second's |
| HealthOverlap.OverlapHarmless | internal/health/health.go:639-649 | so it is in sync whatever the order exactly when the two events move no key in common |
| HealthOverlap.OverlapMisleads | internal/health/health.go:639-649 | an instance: with the two writes swapped a healthy venue reads as stale |
| HealthTracker.Tracker.constructor | internal/health/health.go:142-167 | a new tracker knows no stream and reports nothing |
| HealthTracker.Tracker.StatusOf | internal/health/health.go:465-477 | the status now of a stream, which `HealthReasons.StatusExact` ties to its troubles, and stale for one nobody registered |
| HealthTracker.Tracker.CollectSocketIDs | internal/health/health.go:595-607 | the loop lists the sockets in registration order, each once |
| HealthTracker.Tracker.VenueStatus | internal/health/health.go:538-563 | the venue's status as its loops over the sockets find it |
| HealthTracker.Tracker.WorstOf | internal/health/health.go:568-576 | the loop over channels ends on the worst, the first among equals |
| HealthTracker.Tracker.InstrumentsOn | internal/health/health.go:580-591 | the loop finds exactly the instruments with a stream on the socket, in order |
| HealthTracker.Tracker.RefreshTouched | internal/health/health.go:657-693 | refreshing in place, one instrument after another, gives what refreshing all at once gives, and the snapshots that moved |
| HealthTracker.Tracker.WriteOut | internal/health/publish.go:163-176 | publishes a batch in order, skipping what has no status yet |
| HealthTracker.Tracker.Received | internal/health/health.go:238-250 | goes from state to state, and publishes, as the event specifies |
| HealthTracker.Tracker.Polled | internal/health/health.go:255-267 | the same for a polled value, which does not end fallback |
| HealthTracker.Tracker.KeyExpired | internal/health/health.go:270-282 | the same for an expired key |
| HealthTracker.Tracker.FrameRejected | internal/health/health.go:289-306 | the same for a frame that did not parse: every stream of the socket is marked and only newly marked ones are touched |
| HealthTracker.Tracker.StreamRestarted | internal/health/health.go:309-323 | the same for a restart |
| HealthTracker.Tracker.FallbackEngaged | internal/health/health.go:326-337 | the same for fallback starting, which a second start does not move |
| HealthTracker.Tracker.FallbackFailed | internal/health/health.go:343-352 | the same for fallback failing, with nothing touched when the reason is not new |
| HealthTracker.Tracker.FallbackDisengaged | internal/health/health.go:355-367 | the same for fallback ending |
| HealthTracker.Tracker.MetadataState | internal/health/health.go:379-393 | the same for metadata; nothing at all when it is not a startup requirement |
| HealthTracker.Tracker.SocketState | internal/health/health.go:397-410 | the same for a socket's phase |
| HealthTracker.Tracker.Reconnected | internal/health/health.go:413-421 | the same for a reconnection |
| HealthTracker.Tracker.ClockSkew | internal/health/health.go:427-438 | the same for the clock, which touches every instrument when it moves |
| HealthTracker.Tracker.Leaked | internal/health/health.go:445-459 | the same for leaked goroutines |
| HealthTracker.Tracker.Register | internal/health/health.go:174-198 | declares a stream, once, and publishes nothing |
| HealthTracker.Tracker.InstrumentFor | internal/health/health.go:202-216 | finds the stream's instrument or adds it at the end |
| HealthTracker.Tracker.Beat | internal/health/publish.go:44-53 | refreshes every stream and publishes the whole set |
| HealthTracker.Tracker.CollectSnapshots | internal/health/publish.go:65-71 | a snapshot of every instrument in order, and of the venue last |
| Fallback.StepKeeps | internal/fallback/watcher.go:214-229 | expiry, poll, a poll by a poller that has lost its stream, message, tracker event and heartbeat each keep watcher and tracker in agreement |
| Fallback.ReachableSafe | internal/fallback/poller.go:44-95 | in every reachable state polls are under the cap, only expired streams are polled, exactly those are on fallback, one turned away is stale, none is healthy while it is out, a failure outlives an outage only where a poller has lost the stream, and no polled value ever went out as healthy |
| Fallback.MessageRecovers | internal/supervisor/supervisor.go:612-634 | after any run, a message leaves the stream, and the value it carries, with what metadata, socket and clock alone give exactly when the stream is polled, expired or without a failure on it, or metadata or an open circuit come first; otherwise with the failure |
| Fallback.MessageWipes | internal/fallback/poller.go:71-95 | in any state at all, a message wipes fallback off a stream exactly when it is polled, expired or carries no trace of fallback |
| Fallback.LateFailureMarks | internal/fallback/poller.go:156-190 | a poll that ends after its stream has recovered leaves a failure on it exactly when it could not fetch or had nothing to write |
| Fallback.LateFailureReachable | internal/fallback/poller.go:156-190 | from any start an expiry, a message and such a poll leave a stream marked that is neither polled nor expired |
| Fallback.StuckUntilExpiry | internal/fallback/poller.go:71-95 | through every continuation without an expiry of it, a stream so marked stays stale, and one left on fallback with nobody polling it is never better than degraded |
| Fallback.ExpiryThenMessage | internal/fallback/poller.go:71-95 | once its key has expired again a message wipes it clean, whatever state it was in |
| Fallback.OverlapEngages | internal/fallback/poller.go:59-63 | whatever happens between inserting a poller and telling the tracker, the stream is left on fallback with nobody polling it exactly when the last word on it in between was a message |
| Fallback.OverlapWriteFails | internal/fallback/poller.go:193-233 | whatever happens between asking for ownership and a write that fails, the failure is left on a stream nobody polls exactly when the last word on it in between was a message |
| Fallback.OverlapServes | internal/fallback/poller.go:193-233 | after any run, a value already cleared to be written goes out as healthy exactly when nobody polls its stream any more, no frame of it was rejected, and metadata, socket and clock are well |
| Fallback.ServeMoves | internal/fallback/poller.go:168-189 | however many values one poll writes, only its own stream moves and each goes out as not healthy |
| Fallback.PollShows | internal/fallback/poller.go:156-233 | every poll by the poller that owns a stream shows: without its last value written it leaves the stream stale at every later moment, for the reason it failed; with it, no failure; and it writes as many values as it served |
| Fallback.ExpiryShows | internal/fallback/watcher.go:214-229 | a stream whose key has just expired is stale until a value arrives, and one turned away by the cap for that reason; below the cap it is polled from then on |
| FallbackWatcher.BuildKeys | internal/fallback/watcher.go:130-138 | the key table holds every stream's key and leads to the first stream with it; the order lists each key once |
| FallbackWatcher.Watcher.constructor | internal/fallback/watcher.go:123-129 | a new watcher polls nothing and knows of no expiry |
| FallbackWatcher.Watcher.OnExpired | internal/fallback/watcher.go:205-210 | a key in the table is one expiry of its stream; any other key is ignored |
| FallbackWatcher.Watcher.Expired | internal/fallback/watcher.go:214-229 | reports an expiry once per outage and tries to poll every time |
| FallbackWatcher.Watcher.MarkExpired | internal/fallback/watcher.go:232-240 | says whether the expiry is new, and records it |
| FallbackWatcher.Watcher.Engage | internal/fallback/poller.go:44-66 | starts a poller unless one is on or too many are; no other poller is replaced |
| FallbackWatcher.Watcher.Note | internal/fallback/poller.go:71-95 | ends fallback for a stream and stops its poller and no other |
| FallbackWatcher.Watcher.RunPoll | internal/fallback/poller.go:156-190 | one poll through every way it can end, by any poller ever started: one that has lost its stream writes nothing and still reports its failures |
| FallbackWatcher.Watcher.ServeOne | internal/fallback/poller.go:193-233 | one value: current again, then written with the status that leaves |
| FallbackWatcher.Watcher.Deliver | internal/supervisor/supervisor.go:612-634 | fallback ends first, then the arrival is recorded, then the value goes out |
| FallbackLocks.StepKeeps | internal/fallback/poller.go:44-95 | any one critical section keeps the cap, the count of escalations and the bound on late writes |
| FallbackLocks.RunKeeps | internal/fallback/poller.go:193-240 | under every interleaving escalations less clearing messages is one while expired and none otherwise, polls stay under the cap, and a poller writes at most one message after losing its stream |
| FallbackLocks.NeverReturns | internal/fallback/poller.go:236-240 | a poller that has lost its stream never owns it again |
| FallbackLocks.WritesFetched | internal/fallback/poller.go:156-190 | under every interleaving a poller writes no more messages than it fetched |
| FallbackLocks.StepPolledExpired | internal/fallback/poller.go:44-66 | a step keeps polled streams expired exactly when it does not start a poller for a stream that is not expired |
| FallbackLocks.PolledExpiredExact | internal/fallback/watcher.go:214-229 | under an interleaving polled streams are expired all along exactly when no step does that |
| FallbackLocks.StraysExact | internal/fallback/watcher.go:214-240 | and a step does that exactly when it starts a poller with every expiry of the stream already answered by a message |
| FallbackLocks.RecoveredPolledExact | internal/fallback/watcher.go:214-240 | at any moment of any interleaving a stream is polled and not expired exactly when the poller some step started for it is on and a message has answered each of its expiries |
| FallbackLocks.OverlapPollsRecovered | internal/fallback/watcher.go:214-229 | an instance: a message between the two halves of an expiry leaves a stream polled that is not expired |
| Quorum.BelowQuorum | internal/supervisor/supervisor.go:422-461 | after every event fewer expiries are held than the quorum |
| Quorum.RedialEarned | internal/supervisor/supervisor.go:422-461 | a redial happens only on a live connection up for the grace period, with a quorum of distinct streams of this socket gone within the window, all noted against this connection |
| Quorum.RedialForced | internal/supervisor/supervisor.go:422-461 | and it always happens then: no expiry inside the window is forgotten |
| Quorum.RedialExact | internal/supervisor/supervisor.go:422-461 | over any run an expiry redials exactly when that is so |
| Quorum.RedialByHalf | internal/supervisor/supervisor.go:207-209 | an expiry redials the socket exactly when at least two of its streams, and at least half of those planned rounded down, have gone together on a connection past its grace |
| Quorum.TierExact | internal/supervisor/supervisor.go:422-461 | an expiry is ignored exactly when no connection has been up for the grace period, and restarts its stream exactly when one has and no redial is due |
| Quorum.RedialsApart | internal/supervisor/supervisor.go:404-461 | redials of one socket are at least the grace period apart |
| Quorum.TooFewNeverRedials | internal/supervisor/supervisor.go:207-209 | a socket with fewer distinct streams than its quorum is never redialled |
| Quorum.RedialsPaidFor | internal/supervisor/supervisor.go:422-461 | redials times the quorum never exceed the expiries accepted |
| QuorumLocks.AtomicEscalation | internal/supervisor/supervisor.go:422-451 | deciding and then closing, with nothing in between, is the one step of the quorum |
| QuorumLocks.RunPaid | internal/supervisor/supervisor.go:422-492 | under every interleaving of the two halves a redial is still paid for |
| QuorumLocks.DecisionEarned | internal/supervisor/supervisor.go:422-441 | under every interleaving a decision to redial rests on a quorum of distinct streams gone within the window, all on the one connection then up, and that one past its grace |
| QuorumLocks.HitsAnotherExact | internal/supervisor/supervisor.go:443-492 | under every interleaving an escalation closes a connection other than the one it was decided on exactly when one came up after the decision and is still up |
| QuorumLocks.NewcomerClosed | internal/supervisor/supervisor.go:443-451 | in any run with an escalation yet to close: the connection drops, another comes up, and that one is closed |
| QuorumLocks.DecisionsApart | internal/supervisor/supervisor.go:404-461 | decisions to redial are a grace period apart whenever anything has taken down or replaced the first one's connection in between |
| QuorumLocks.DecisionsTogether | internal/supervisor/supervisor.go:422-441 | and need not be apart otherwise: when a further quorum of streams goes before the closing, the last of them decides again at the same moment |
| SocketRunner.Runner.SetConn | internal/supervisor/supervisor.go:466-472 | adopts a connection and drops the expiries held |
| SocketRunner.Runner.CloseConn | internal/supervisor/supervisor.go:482-492 | drops and closes the connection |
| SocketRunner.Runner.Prune | internal/supervisor/supervisor.go:431-438 | deletes from the map while walking it, in any order, and counts exactly what is left |
| SocketRunner.Runner.NoteExpiry | internal/supervisor/supervisor.go:422-461 | decides the tier, and a redial closes the connection it had and signals the session |
| Mailbox.RunKeeps | internal/supervisor/supervisor.go:571-605 | under every interleaving of any number of producers and consumers a waiting message has a token, a producer about to send one, or a consumer about to take |
| Mailbox.TakenInOrder | internal/supervisor/supervisor.go:588-605 | under every interleaving what is taken is a strictly increasing subsequence of what was delivered |
| Mailbox.TakesNewest | internal/supervisor/supervisor.go:599-605 | a consumer that takes a message takes the newest there is |
| Mailbox.QuietHasTaken | internal/supervisor/supervisor.go:571-605 | no wakeup is lost: when everyone has come to rest the newest message has been taken |
| Mailbox.ComesToRest | internal/supervisor/supervisor.go:571-605 | once deliveries stop every schedule comes to rest within a bounded number of steps |
| Mailbox.NeverStuck | internal/supervisor/supervisor.go:571-605 | until then some goroutine can take a step |
| Mailbox.PublishedInOrder | internal/supervisor/supervisor.go:571-584 | with one goroutine on the stream no price is published after a newer one |
| Mailbox.LeakedPublishesLate | internal/supervisor/supervisor.go:571-584 | with any two goroutines on the stream, the one that holds an older price can publish it after the newer |
| Mailbox.PublishedInOrderExact | internal/supervisor/supervisor.go:571-584 | a set of goroutines publishes in order under every schedule exactly when it has at most one member |
| Mailbox.StreamRunner.Deliver | internal/supervisor/supervisor.go:588-597 | stores and signals without blocking, as the two steps do |
| Mailbox.StreamRunner.ReceiveAndTake | internal/supervisor/supervisor.go:571-605 | receives the token and takes what it stands for, as the two steps do |
| Tasks.StepKeeps | internal/supervisor/task.go:102-190 | one channel operation of loop, goroutine or caller keeps the accounting |
| Tasks.AliveBounded | internal/supervisor/task.go:102-157 | at most one goroutine is alive beyond those counted leaked, none beyond them once supervision is over, and restarts are launches or one fewer |
| Tasks.LeaksExact | internal/supervisor/task.go:159-190 | under every interleaving the leaks counted are exactly the goroutines a stop gave up on and those that told the stop waiting for them of a leak, each once |
| Tasks.LaunchesAfter | internal/supervisor/task.go:159-190 | a goroutine is launched only when each before it has returned or been given up on, after it was cancelled and unblocked |
| Tasks.LaunchesEnd | internal/supervisor/task.go:102-148 | once the context has ended no goroutine is launched, but for one the loop was already about to, and no restart is counted |
| Tasks.SendNeverBlocks | internal/supervisor/task.go:123-124 | no goroutine waits to send its exit, however late it comes back |
| Tasks.StopsAnswerRequests | internal/supervisor/task.go:77-85 | the loop stops a goroutine at most once per request, and never for one made before it last cleared them |
| Tasks.NeverStuck | internal/supervisor/task.go:102-148 | until its context ends supervision can always go on |
| Breaker.FlagRedundant | internal/transport/breaker.go:61-100 | an open or probing breaker has failed threshold times in a row, so it behaves as one without the probing flag does |
| Breaker.PlayRemembers | internal/transport/breaker.go:61-100 | under the socket loop the breaker remembers the streak of failures and when the last of them past the threshold ended |
| Breaker.FailuresApart | internal/supervisor/supervisor.go:226-259 | failures past the threshold are at least an open period apart |
| Breaker.DialsApart | internal/supervisor/supervisor.go:226-259 | the dial after j further failures starts at least j + 1 open periods after the failure that reached the threshold |
| Breaker.NeverEarly | internal/transport/breaker.go:61-90 | below the threshold, or disabled, it never holds a dial back |
| Breaker.WaitExact | internal/transport/breaker.go:61-74 | the wait answered is the shortest after which the breaker no longer refuses |
| Breaker.Breaker.Retry | internal/transport/breaker.go:61-74 | how long to wait, and the probe handed out when the period is over |
| Breaker.Breaker.Fail | internal/transport/breaker.go:78-90 | counts a failure and opens at the threshold or on a failed probe |
| Breaker.Breaker.Succeed | internal/transport/breaker.go:93-100 | closes and forgets |
| Breaker.Breaker.Open | internal/transport/breaker.go:104-108 | open exactly when a retry would be refused |
| Core.MarketTypeRoundTrip | internal/core/enums.go:21-37 | a market type's name leads back to it exactly when it is known and specified |
| Core.ChannelRoundTrip | internal/core/enums.go:41-57 | the same for a channel |
| Core.NamesExact | internal/core/enums.go:21-57 | what parses as a market type or a channel is its name in any case, and nothing else is |
| Core.SettleExact | internal/core/instrument.go:47-64 | a linear contract settles in its quote, an inverse one in its base, and what is no contract in neither |
| Keys.ParseThenText | internal/publish/keys.go:105-163 | a key that parses is rebuilt exactly by its parts |
| Keys.KeyGrammar | internal/publish/keys.go:105-163 | character by character, a string is a key exactly when it is the prefix, a venue, a market type, a symbol and a channel, or the prefix, a venue, the word venue and a subject |
| Keys.SymbolGrammar | internal/core/instrument.go:47-64 | a canonical symbol is two words of capitals and figures with an underscore between, and gives an instrument exactly when its market type is not the unspecified one |
| Keys.KeyThenParse | internal/publish/keys.go:60-163 | a key parses back to its components exactly when each is valid; one from an unspecified or unknown value never parses |
| Keys.VenueKeyThenParse | internal/publish/keys.go:76-163 | the same for venue-wide keys |
| Keys.KeysInjective | internal/publish/keys.go:60-78 | valid keys collide only for the same stream, and never with a venue-wide key |
| Symbols.ParseThenPrint | internal/adapter/binance/binance.go:177-199 | an instrument read from a venue symbol is called that symbol, trimmed and in upper case |
| Symbols.PrintThenParse | internal/adapter/kucoin/kucoin.go:180-223 | printing then parsing gives an instrument back exactly when it is a linear perpetual whose quote is the first listed that properly ends base and quote |
| Symbols.VenueSymbols | internal/adapter/kucoin/kucoin.go:174-192 | a linear perpetual is its base and quote run together on Binance, with an M after them on KuCoin |
| Symbols.Refusals | internal/adapter/binance/binance.go:157-199 | what looks like a dated contract is refused on Binance, what does not end in M on KuCoin, and only linear perpetuals are read or named |
| Symbols.SpacesAndCase | internal/adapter/binance/binance.go:177-188 | spaces around a symbol and the case of its letters do not matter |
| Symbols.BinanceSplits | internal/adapter/binance/binance.go:60-199 | on Binance that is every listed quote but USD after a base ending in B, T or FD |
| Symbols.KucoinSplits | internal/adapter/kucoin/kucoin.go:61-223 | on KuCoin it is exactly the listed quotes |
| Symbols.BuildReverse | internal/adapter/binance/binance.go:145-149 | the reverse table leads each override value to a symbol it stands for, whatever order the overrides are walked in |
| Symbols.OverriddenRoundTrip | internal/adapter/kucoin/kucoin.go:180-223 | with distinct, readable override values, printing then parsing gives an instrument back exactly when it is overridden, or the rule reads it back and no override spells the same |
| Symbols.OverriddenParseThenPrint | internal/adapter/kucoin/kucoin.go:180-223 | and parsing then printing spells the symbol exactly when it was an override or its instrument is not overridden |
| Planner.GroupBySymbol | internal/adapter/binance/binance.go:214-225 | groups the streams by symbol, and fails exactly when one is not served |
| Planner.PlanSubscriptions | internal/adapter/binance/binance.go:207-244 | the plans are laid out from the sorted symbols and their groups; an error exactly when a stream is not served |
| Planner.StreamNames | internal/adapter/binance/binance.go:263-281 | each topic once, in plan order |
| Planner.SocketsNamed | internal/adapter/binance/binance.go:235 | no two sockets share an ID |
| Plans.ServesExact | internal/adapter/binance/binance.go:246-259 | what is served is exactly the mark price, the index price and the funding of what the venue has a symbol for |
| Plans.NamesGiven | internal/adapter/binance/binance.go:44-235 | the topic and the socket ID each venue is given, on one symbol of each |
| Plans.PlansPermute | internal/adapter/binance/binance.go:207-244 | the plans carry every stream asked for, as often as asked, and nothing else |
| Plans.PlansAscend | internal/adapter/kucoin/kucoin.go:231-266 | symbols ascend from plan to plan, so a symbol's streams share one socket |
| Order.LessExact | internal/adapter/binance/binance.go:229 | symbols are sorted as strings: by the first character in which they differ, a prefix before what it begins |
| Plans.SocketsFewest | internal/adapter/binance/binance.go:231-243 | there are as many sockets as the symbols fill, the last one perhaps in part, and no more |
| Plans.PlanInOrder | internal/adapter/binance/binance.go:236-241 | on each socket streams stand by symbol, and those of a symbol by channel |
| Plans.PlanTopics | internal/adapter/kucoin/kucoin.go:285-303 | what a socket subscribes to is exactly its chunk of symbols, at least one and never more than the limit |
| Plans.OrderIndependent | internal/adapter/binance/binance.go:212-244 | the same streams in another order give the same plans, when no two share symbol and channel |
| Plans.TiesUnsettled | internal/adapter/binance/binance.go:238 | any input with two streams that share both has a layout besides the one it got, with other plans |
| Plans.SettledExact | internal/adapter/binance/binance.go:207-244 | so the plans depend on nothing but which streams are asked for exactly when no two share symbol and channel |

## Left out

- Redis, websockets, HTTP, JSON, metrics, logging, configuration and the commands: a publish appends to a ghost trace, a dial or a poll is an outcome given to the step.
- Fields of the health snapshot other than status and reason (ages, restart counts, sequence numbers).
- Price.SuccessExact: strings are ASCII; the code lower-cases with Unicode rules only to compare with three ASCII words.
- Symbols.ParseThenPrint: trimming and changing case are those of ASCII, so a symbol with other letters is not modelled.
- Price.ParseAt: claims nothing for strings of 2^30 - 64 characters or more; `Price.Parse` gives what the code answers there and `PriceSaturation.SaturationExact` when that is what the string means.
- RateLimit.LocalLimiter.Reserve: times and products are unbounded integers, so the overflow of 64-bit durations is not modelled; a deadline is an option instead of a zero time, and a bucket never used has no timestamp instead of the zero one.
- RateLimit.LocalLimiter.Allow: the sleep is a flag that says whether it ran to its end, and the advisory key it writes is left out.
- Bucket.Fraction: a product of floats; any resulting capacity of at least one is covered.
- Backoff delays: any waiting time is allowed between attempts.
- HealthHistory.StreamRemembers: says nothing of a stream's source, which the code only logs.
- HealthTracker.Tracker.Received: an event reads the clock once, where the code may read it again for each stream it refreshes.
- HealthTracker.Tracker.Register: stream and instrument records are values in the tracker's map and list, not objects that point at each other.
- HealthPublish.ReplayInSync: a snapshot is published as part of its event; what two overlapping events do is `HealthOverlap.OverlapExact`.
- HealthOverlap.OverlapExact: two events overlap at a time.
- Fallback.ReachableSafe: a step is a whole event and shutdown is not one; steps that overlap are in `Fallback.OverlapEngages`, `Fallback.OverlapWriteFails`, `Fallback.OverlapServes` and `FallbackLocks`, one overlap at a time.
- Fallback.StuckUntilExpiry: its continuations are of whole events; a value cleared to be written before the mark was made would clear it.
- FallbackWatcher.Watcher.RunPoll: a poll that ends because the context did is not modelled; neither are the sweep, which repeats `OnExpired` over the keys found missing, and the ticker.
- Quorum.RedialExact: an escalation is one step; its two halves are in `QuorumLocks`. The session's one-slot redial signal is a flag that is set and not read.
- SocketRunner.Runner.NoteExpiry: that a stream is to be restarted is its answer; the restart itself is a request to the stream's own supervision (`AskRestart` in `Tasks.dfy`), made by the caller.
- Tasks.AliveBounded: the loop is a state machine over its channel operations, with the check that its context has not ended and the count of the restart one step, and its counters are unbounded, where the code's are 32 bits wide.
- Mailbox.StreamRunner.Deliver: as an object the mailbox is run by one goroutine at a time; the interleavings are those of `Mailbox.Step`.
- Planner.PlanSubscriptions: sorting is by insertion, where the code calls its library; the error says only that a stream is not served, not which.
- Price, size and rate types are integers of their scale; JSON encoding of them is left out.
- Tabdeal's adapter, the metadata refresher, KuCoin's handshake, the sequence numbers of the Redis publisher and the clock-skew estimate.
