# Verification of the exchange client and the market-data relay

This project models the parts of the repository whose correctness does not depend on the network, and proves what they
guarantee.  `dafny verify dfyconfig.toml` checks all of it.

**Relay data plane** (`Relay*`, `Fanout`, `TradeCache`).  `Relay` is a state machine over the fanout hub, the order-book
cache, the upstream callback and the streaming server.  Every atomic operation and every block under a lock is one step;
any number of calls interleave freely.  As history the model keeps what was offered to each subscriber, accepted, dropped
and received.

- `RelayInvariant` says what every step keeps, `RelaySteps` proves it step by step, `RelayEffects` says what a step can
  change, and `RelayRuns` draws the conclusions that hold in every run.
- `RelayRules` are rules that callers may keep.  Under them `RelayLifecycle` and `RelayOnce` prove that channels are closed
  once, `RelaySlow` (with `RelayNames`) that slow members leave, and `RelayFresh` that clients catch up.
- `RelayBooks` says which levels of a book are kept and streamed, `RelayLeaves` who leaves when only the hub removes.
- `RelayAlone` and `RelayClient` run one publisher and one client on their own, to build runs from any state.  With them
  `RelayDisplaced`, `RelayOverlap` and `RelayForeign` show exactly when a broken rule does harm.
- `Fanout` is the hub as a class, called by one caller at a time; `TradeCache` is the ring buffer and the cache layer as
  classes.

**Numbers on the wire** (`Decimal`, `Wire`).  Prices and sizes are exact non-negative decimals: a natural number and a
number of places.  Rounding, digit counting, printing, trimming and parsing are functions on them; the loops of `pow10`
and of the trimming in `FloatToWire` are methods.

**Counters** (`Nonce`, `Usage`, `UsageRecords`, `UsagePeaks`, `UsageFlush`, `StreamLimits`).  The nonce counter and the usage collector are state machines
over atomic loads, compare-and-swaps and swaps; the stream limiter is a class that refines a map of slots.

**WebSocket client** (`SubscriptionKeys`, `Registry`, `RegistryRuns`, `RegistryDelivery`, `RegistryDispatch`, `PostRequests`).  The subscription
registry is a class with its two stores for one caller at a time, and a state machine whose lists share arrays that a
removal shifts in place, for calls that overlap; concurrent post requests are a state machine over registration, delivery,
timeout and disconnect.

**Authentication and reconnecting** (`AuthCache`, `AuthVerdicts`, `AuthService`, `Backoff`).  The cache in front of the changing table is a
state machine whose calls overlap, and a class for one caller at a time; the backoff is computed in wrapping 64-bit
integers.

## Where the code departs from its intent

- A subscriber may be put into two topics: the relay's WebSocket handler does so for a client that subscribes to two
  symbols with its one subscriber (relay/internal/api/server.go:337-365).  `TwoTopicsCloseTwice` shows that two removals
  then close its channel twice; `SafeIffMayJoin` and `CanCloseTwiceIff` say exactly when that can happen, and
  `StreamsNeverCloseTwice` that the gRPC stream never does it.
- Publish tests the closed flag and sends in two actions.  `StaleCopyPanics` gives the panic; `DoomedIff` says exactly which
  closes lead to it.
- Two overlapping callbacks of one symbol can leave a client that has caught up with an older book than the cache
  (`OverlapShowsOldBook`), exactly when the earlier one has yet to offer its book to the client (`OverlapIff`).  They can
  overlap when a symbol is unsubscribed and subscribed again while a callback of the old stream still runs
  (relay/internal/upstream/manager.go:112-148).  A callback whose book names another symbol than the callback does the
  same on its own (`ForeignIff`).
- A member over the slow threshold stays, with nobody to remove it, when a subscriber with the same id takes its place in a
  topic while a publisher still owes it an update: the publisher then removes the new one (`DisplacementStrands`).
  `JoinKeepsTrackedIff` and `DisplacedIff` say exactly which joins do this; with distinct ids none does
  (`DistinctNoneSlow`).
- A usage record can fall on a buffer that a flush has already emptied; `LostIsLate` says that this is all that is lost,
  and `AdditionCanBeLost` gives a run.  Ids beyond the Unicode range share buffers (`LargeIdsCollide`).
- SetLimit forgets open streams (`SetLimitExactIff`, `SetLimitOverflows`), and a key first seen by Allow gets the default
  request rate as its stream limit.
- Subscribing again under a live key without a user leaves the displaced subscription in the index, and a user's second
  coin on the active-asset channel is taken for the first and not filed (`SecondCoinIsSkipped`).
- Order updates are not filtered by user (`OtherUserMatchesIff`).
- The client sends a message to its handlers after it has released the lock.  A removal or a disconnect in between closes a
  channel that is sent to next (`RemovalPanics`); `EndangersIff` and `PanicsAloneIff` say exactly which do, and
  `StaysBehindIff` which removals the shift in place hides from a dispatch under way.
- Two calls for one user that both look before either files leave the user two subscriptions (`OverlappingAddsFileTwo`).
- SizeToWire trims zeros also from a text without a decimal point: with a negative precision it sends 99.7 as "1" and 0.3
  as nothing (`NegativePrecision`, `SizeTextIff`).
- A login that has queried the table before an invalidation can fill the cache after it (`OldAnswerIff`).
- The backoff overflows: with the default configuration from attempt 38 on it is right only for seven attempts, and from
  attempt 57 on the stream reconnects without a pause (`DefaultDelayIff`, `DefaultsThatWrap`).
- The comments of CalculateSlippage promise six significant figures and six places; the code keeps five figures and does
  not round to places (utils.go:61-68).  The comment of calculateBackoff gives the exponent as the attempt; the code uses
  the attempt less one (relay/internal/upstream/manager.go:252-253).  The model follows the code.

## Model

| member | source | states |
|---|---|---|
| RelayRuns.RunKeepsInv | relay/internal/fanout/fanout.go:58-142 | In every run, whatever the callers do, the relay keeps its invariant: updates are offered at most once and only after the copy of the members, locked members stay, histories, counters and membership agree |
| RelaySteps.ThreadKeepsInv | relay/internal/fanout/fanout.go:98-142 | Every step of a call of Publish, Subscribe, Unsubscribe, StreamOrderBook or onData keeps the invariant unless it panics |
| RelaySteps.EventKeepsInv | relay/internal/fanout/fanout.go:177-198 | Every call that begins, every sweep of an idle member, every receive and every eviction of a book keeps the invariant |
| RelayRuns.SubscriberAccounting | relay/internal/fanout/fanout.go:113-133 | What a subscriber received and has queued is exactly, in order, what was accepted for it; accepted, dropped and drops about to be counted add up to the offers; no update is offered twice |
| RelayRuns.HubAccounting | relay/internal/fanout/fanout.go:74-93 | The hub's drop counter plus the drops about to be counted is the sum of the subscribers' counters; the gauge plus the joins about to be counted is the membership plus the joins that displaced a member |
| RelayRuns.CountersAtRest | relay/internal/fanout/fanout.go:58-133 | When all calls have returned the counters are exact |
| RelayRuns.NoGap | relay/internal/grpc/server.go:250-271 | No gap in any run: a book written after a member read its snapshot, whose callback has returned, was enqueued for it or recorded as dropped, unless the member is being removed |
| RelayFresh.DrainedShowsCache | relay/internal/grpc/server.go:255-269 | When no book of the topic arrives while an earlier one may still be offered to the client, a client that dropped nothing and drained its queue, with no book left to be offered to it, was last sent the cached book |
| RelayFresh.OneFeedInTurn | relay/cmd/relay/main.go:97-107 | Callbacks of a symbol that do not overlap, with books of that symbol, arrive in this way for every client |
| RelayFresh.NewestAfter | relay/cmd/relay/main.go:97-107 | When books of the topic come in turn for a client, a book that may still be offered to it is the newest of the topic |
| RelayFresh.CachesNewestAfter | relay/internal/cache/cache.go:96-109 | The cache holds the newest update that was written for a symbol |
| RelayBooks.CachedIsBest | relay/internal/cache/cache.go:96-109 | In every run the cached book of a symbol is of that symbol and keeps, level by level from the first, as many levels of the book that its callback brought as there were up to the depth |
| RelayBooks.SentIsBest | relay/internal/cache/cache.go:96-109 | In every run the same of every book that was sent to a client or waits for one |
| RelayBooks.EvictedUntilWritten | relay/internal/cache/cache.go:175-186 | After an eviction the symbol has no cached book until one is written again, and other symbols keep theirs |
| RelayLeaves.ChannelsFit | relay/internal/fanout/fanout.go:116-127 | In every run no channel holds more than its buffer |
| RelayLeaves.SlowLeaveIff | relay/internal/fanout/fanout.go:123-132 | With different ids and no removal but by the hub, only subscribers over the threshold are removed, and when no publish is under way all of them are being removed |
| RelayOverlap.OverlapIff | relay/cmd/relay/main.go:97-107 | While one callback of a topic is under way, a further one can leave a streaming client, caught up and quiet, with another book than the cached one if and only if the earlier has yet to offer its book to that client |
| RelayOverlap.OverlapShowsOldBook | relay/cmd/relay/main.go:97-107 | From every relay in which nothing of the topic is being published, two callbacks with any two books that differ after trimming can leave a client with the older one |
| RelayForeign.ForeignIff | relay/cmd/relay/main.go:97-107 | With nothing of the topic being published, a single callback can leave a client with an old book if and only if it names the topic and its book another symbol, or the other way round |
| RelayLifecycle.NeverClosedTwice | relay/internal/fanout/fanout.go:78-95 | If every join is of an open subscriber that no other key holds, no channel is closed twice, although publishers, sweeps and removals use stale copies |
| RelayLifecycle.SafeIffMayJoin | relay/internal/fanout/fanout.go:70-72 | A join keeps the hub safe if and only if the subscriber is open and held under no other key |
| RelayLifecycle.CanCloseTwiceIff | relay/internal/fanout/fanout.go:87-93 | In every state, with calls under way or not: with only such joins from now on, a channel can still be closed twice if and only if some subscriber is held under two keys or held closed |
| RelayLifecycle.TwoTopicsCloseTwice | relay/internal/fanout/fanout.go:58-95 | From every relay at rest, putting an open subscriber into two topics and removing it from both closes its channel twice |
| RelayLifecycle.RemovalRuns | relay/internal/fanout/fanout.go:78-95 | A removal that runs alone closes the channel, deletes the member and ends, or panics if the channel was closed |
| RelayLifecycle.DoomedIff | relay/internal/fanout/fanout.go:117-122 | Exactly a close between a publisher's test of the flag and its send makes that publisher about to panic |
| RelayLifecycle.DoomedPanics | relay/internal/fanout/fanout.go:120-122 | Such a publisher stays doomed until it runs and then panics, and no other send panics |
| RelayLifecycle.NeverSentOnClosed | relay/internal/fanout/fanout.go:116-122 | If no channel is closed between the test and the send, nothing is ever sent to a closed channel |
| RelayLifecycle.StaleCopyPanics | relay/internal/fanout/fanout.go:107-122 | From every relay at rest, a member removed between the test and the send panics the relay |
| RelayOnce.StreamsNeverCloseTwice | relay/internal/grpc/server.go:250-253 | The streaming server alone never closes a channel twice, whatever ids its subscribers carry |
| RelayOnce.OnceIsOpen | relay/internal/fanout/fanout.go:58-75 | If every subscriber joins once, every join is allowed |
| RelayOnce.NoSlowMember | relay/internal/fanout/fanout.go:123-132 | When no publish of a topic is under way, every member that joined once has dropped at most the threshold or is being removed, whatever ids the subscribers carry and whatever other topics are publishing |
| RelaySlow.DistinctNoneSlow | relay/internal/fanout/fanout.go:123-132 | In every run whose subscribers carry different ids, when no publish is under way every subscriber, in however many topics it is, has dropped at most the threshold or is being removed |
| RelaySlow.NoneSlow | relay/internal/fanout/fanout.go:123-132 | The same for any ids, if no join displaces an open subscriber that a publisher still owes an update |
| RelaySlow.JoinKeepsTrackedIff | relay/internal/fanout/fanout.go:70-74 | In every state: exactly these joins keep every open subscriber within the threshold or on its way out, under a key that holds it |
| RelayDisplaced.DisplacedIff | relay/internal/fanout/fanout.go:70-74 | When a join displaces an open member at its limit while one publish of the topic is under way, the relay can come to rest with an open subscriber over the threshold if and only if that publisher owes the displaced one its update |
| RelayDisplaced.DisplacementStrands | relay/internal/fanout/fanout.go:98-134 | From every relay with no publish under way: a callback and a join under the same id can leave a member at its limit open and over the threshold, still held by all its other topics |
| Fanout.UnreadMember | relay/internal/fanout/fanout.go:116-132 | A member that reads nothing keeps the first messages that fit, drops the rest, is closed exactly when it has dropped more than the threshold, and was last sent to when something last fit |
| Fanout.ServedFields | relay/internal/fanout/fanout.go:116-132 | What a publish does to an open member: the message ends its queue if it fits; otherwise one more drop, and it leaves exactly when that is above the threshold |
| Fanout.Hub.Publish | relay/internal/fanout/fanout.go:98-134 | Every member is served once, in its fields; exactly the members that the drop puts over the threshold leave; both counters change by exactly the drops and the removals |
| Fanout.Hub.Subscribe | relay/internal/fanout/fanout.go:58-75 | Any subscriber is filed under its id, displacing a member of that id, and the gauge counts the call; a sound hub stays sound if and only if the subscriber is open and held by no other topic |
| Fanout.Hub.Unsubscribe | relay/internal/fanout/fanout.go:78-95 | The member is closed and leaves, and nothing else changes |
| Fanout.Hub.CleanupZombies | relay/internal/fanout/fanout.go:177-198 | Exactly the members of all topics to which nothing was sent for longer than the timeout are closed and leave, and the gauge goes down by as many |
| TradeCache.TradeRingBuffer.Add | relay/internal/cache/cache.go:39-48 | The ring holds the last trades of its history, oldest overwritten first |
| TradeCache.AddedToRing | relay/internal/cache/cache.go:39-48 | Writing at the head of a ring forgets the oldest trade of a full ring and no other |
| TradeCache.TradeRingBuffer.GetAll | relay/internal/cache/cache.go:51-66 | Returns the last trades ever added, as many as fit, oldest first |
| TradeCache.TradeRingBuffer.GetRecent | relay/internal/cache/cache.go:69-82 | Returns the suffix of what GetAll returns |
| TradeCache.LastOfLast | relay/internal/cache/cache.go:69-82 | The most recent of the most recent trades are the most recent trades |
| TradeCache.LastForm | relay/internal/cache/cache.go:51-82 | What both functions return: as many trades as asked for, as fit and as there are, in order, from the end of the history |
| TradeCache.SinceIsFiltered | relay/internal/cache/cache.go:138-186 | The history of a symbol is the list of its trades after its last eviction, in order |
| TradeCache.Layer.AddTrade | relay/internal/cache/cache.go:138-148 | Adds to the history of the trade's symbol alone |
| TradeCache.Layer.GetRecentTrades | relay/internal/cache/cache.go:151-160 | Returns the most recent trades of the symbol since its last eviction, at most the buffer size |
| TradeCache.Layer.UpdateOrderbook | relay/internal/cache/cache.go:96-109 | Cuts the given snapshot itself to its first levels, as many as there are up to the depth, and caches it for its symbol |
| TradeCache.Layer.GetOrderbook | relay/internal/cache/cache.go:112-135 | Returns a new copy equal to the cached snapshot, or nothing |
| TradeCache.Layer.Cleanup | relay/internal/cache/cache.go:175-186 | Drops exactly the symbols with stale books, and with each its trades |
| Wire.PriceMonotone | convert.go:152-197 | A smaller price never prints as a larger number, across integers, decades and carries |
| Wire.PriceIdempotent | convert.go:152-197 | Formatting the parsed text again gives the same text |
| Wire.PriceRules | convert.go:158-187 | A text with decimals has at most five significant digits and at most maxDecimals - szDecimals decimals, and the value differs from the price by at most half a unit of the last place kept, a half being rounded up |
| Wire.PricePrintsAndParses | convert.go:185-197 | The text parses to exactly the rounded value, keeps all integer digits, and has no trailing zero or bare point |
| Wire.EqualValuesEqualText | convert.go:189-196 | Equal rounded values have equal texts |
| Wire.FinerSameWire | convert.go:152-197 | The text depends on the number only, not on the places it is given with |
| Wire.Log10FloorBounds | convert.go:164-176 | The exponent is that of the decade in which the number lies |
| Wire.SizePrintsAndParses | convert.go:202-219 | A size is rounded to the nearest with szDecimals places, a half upwards, to the nearest integer for a negative szDecimals, and cut off when szDecimals is 0; its text has at most szDecimals decimals and parses to that value unless digits are trimmed away |
| Wire.SizeTextIff | convert.go:216-218 | The text parses to the rounded size if and only if not (szDecimals is negative, the size no integer, and the rounded size ends in 0); otherwise it is empty or the number without its zeros at the end |
| Wire.NegativePrecision | convert.go:216-218 | With szDecimals -1 the sizes 99.7 and 0.3 are sent as "1" and as the empty text |
| Wire.ParseFormat | convert.go:189-190 | Parsing a fixed-point text gives the number it was made of |
| Wire.TrimFormat | convert.go:191-195 | Trimming a fixed-point text gives the text of the same value without trailing zeros |
| Wire.TrimLoop | convert.go:126-134 | The trimming loop leaves the shortest text of the same value |
| Wire.Pow10 | convert.go:138-144 | The loop computes the power of ten, and 1 for an exponent that is not positive |
| Wire.LiftIsProduct | convert.go:186-187 | Multiplying by that power shifts a decimal by as many places |
| Wire.FiveSignificantZeros | utils.go:61-64 | After rounding to five significant digits all further digits are zeros, also after a carry |
| Wire.RoundHalfEvenNearest | utils.go:61-64 | That rounding is to the nearest |
| Wire.SlippageIsNear | utils.go:54-69 | The slippage price is the price times one plus the slippage for a buy, less it for a sell, to within half a unit of that product's fifth significant digit, and the product itself if it has at most five |
| Wire.HalfGoesToEven | utils.go:61-64 | A product halfway between two numbers of five digits becomes the even one |
| Wire.SellIsNotAboveBuy | utils.go:54-69 | With a slippage that is not negative the sell price is at most the rounded price, and that at most the buy price |
| Wire.SlippageThenWire | utils.go:54-69 | PriceToWire of a slippage price is that price rounded to the tick alone: the significant-figure rule never changes it a second time |
| Nonce.NonceGuarantees | utils.go:18-40 | Over all interleavings nonces are distinct and at least the sampled time, a call that began after another returned gets a larger one, and the counter stays within the number issued of the latest time |
| Nonce.NonceIsLeast | utils.go:18-40 | A nonce is the least number that is at least the sampled time and above the counter's start and every nonce before it |
| Nonce.BeginFollowsReturned | utils.go:18-40 | A call that begins now comes after every call that has returned |
| Nonce.FailedSwapMeansProgress | utils.go:24-38 | A compare-and-swap fails exactly when another call succeeded since the load |
| Usage.RunKeepsInv | relay/internal/usage/usage.go:65-197 | Every run of recorders and flushes keeps the invariant: each buffer is swapped once, by one flush, and each row is the sum of what was written to it |
| Usage.Conservation | relay/internal/usage/usage.go:65-132 | Additions made are what was written, what flushes hold and what is left in all buffers ever made |
| Usage.TableConservation | relay/internal/usage/usage.go:150-197 | The same with the table's rows summed over all dates |
| Usage.LostIsLate | relay/internal/usage/usage.go:150-177 | After a last flush, what the table lacks is exactly what was added after a flush had swapped that counter |
| Usage.ExactWithoutRace | relay/internal/usage/usage.go:65-68 | When no flush falls between a lookup and its addition, the table is exact after a last flush |
| Usage.AdditionCanBeLost | relay/internal/usage/usage.go:66-67 | A run in which one recorded request never reaches the table |
| Usage.RowPeak | relay/internal/usage/usage.go:90-101 | The peak of a row is the highest stream count reported to a buffer flushed into it; UsagePeaks ties the reports to the calls |
| Usage.SameKeyIff | relay/internal/usage/usage.go:130-132 | Two ids share a buffer exactly when both numbers become the same characters; valid ids never do |
| Usage.LargeIdsCollide | relay/internal/usage/usage.go:130-132 | Ids beyond the Unicode range share a buffer |
| Usage.FoundBufferIsOwn | relay/internal/usage/usage.go:103-128 | A recorder with a valid id finds the buffer of that id |
| UsageRecords.RecordedIsMade | relay/internal/usage/usage.go:65-88 | In every run with valid ids, the additions in the buffers of an id are exactly the finished calls of Record with that id, counter by counter |
| UsageRecords.RecordedIsKept | relay/internal/usage/usage.go:65-197 | What the finished calls for an id counted is in its rows, in the hands of flushes or left in its buffers; without a flush between a lookup and its addition, after a last flush it is all in its rows |
| UsagePeaks.ReportedIsFinished | relay/internal/usage/usage.go:90-101 | In every run with valid ids, the stream counts reported for an id, in its buffers, in the hands of flushes or written, are exactly the arguments of its finished UpdatePeakStreams calls, each as often |
| UsagePeaks.PeaksAreKept | relay/internal/usage/usage.go:90-177 | Without a flush between lookup and swap, after a last flush every peak in the id's rows is one of these arguments or 0, and each argument above 0 is at most the peak of some row |
| UsagePeaks.HighestPeak | relay/internal/usage/usage.go:90-177 | So the highest peak in the id's rows is the highest argument |
| UsagePeaks.WrittenUnderItsDate | relay/internal/usage/usage.go:150-177 | What was written for a date is one row update for every buffer that the flushes of that date have finished |
| UsageFlush.FlushAlone | relay/internal/usage/usage.go:150-177 | From every state at rest, a flush that runs alone writes every buffer in the map, with all that it held, under its date, and leaves the map empty |
| StreamLimits.SlotsAreExact | relay/internal/ratelimit/ratelimit.go:121-136 | Granted acquires less releases are the open streams, never above the limit with which the limiter was made, and a key with open streams keeps its limiter |
| StreamLimits.HeldLimiterStays | relay/internal/ratelimit/ratelimit.go:221-231 | No call but SetLimit replaces the limiter of a key with open streams |
| StreamLimits.OneAccess | relay/internal/ratelimit/ratelimit.go:100-231 | A request or acquire sets the key's time of access and nothing else changes it; only a cleanup removes a key, exactly when it is older than the threshold and has no open stream |
| StreamLimits.SetLimitExactIff | relay/internal/ratelimit/ratelimit.go:139-158 | SetLimit keeps the count exact if and only if no stream of the key is open |
| StreamLimits.SetLimitOverflows | relay/internal/ratelimit/ratelimit.go:144-147 | After SetLimit the key can have as many streams too many as were open |
| StreamLimits.Limiter.AcquireStream | relay/internal/ratelimit/ratelimit.go:121-125 | Takes a slot if one is free under the limit of the key's limiter, made on demand |
| StreamLimits.Limiter.ReleaseStream | relay/internal/ratelimit/ratelimit.go:128-136 | Gives back a slot of the key, if it has any |
| StreamLimits.Limiter.SetLimit | relay/internal/ratelimit/ratelimit.go:139-158 | The key gets the new limit and no open streams |
| StreamLimits.Limiter.Allow | relay/internal/ratelimit/ratelimit.go:100-104 | Makes the key's limiter with the default request rate as stream limit |
| StreamLimits.Limiter.Cleanup | relay/internal/ratelimit/ratelimit.go:221-231 | Removes exactly the limiters that were idle for two intervals and have no open stream |
| SubscriptionKeys.RebuiltIsStored | websocket.go:921-938 | For all sixteen Subscribe methods the reconnect rebuilds exactly the stored key |
| SubscriptionKeys.SameKeyIff | websocket.go:1093-1354 | Two calls share a key exactly when they call the same method with parameters that read the same when joined by colons |
| SubscriptionKeys.KeysDiffer | websocket.go:1093-1354 | Without colons in the parameters different calls have different keys |
| SubscriptionKeys.ColonsCollide | websocket.go:1259-1262 | With colons two calls can share a key |
| SubscriptionKeys.NamesDiffer | websocket.go:733-770 | The sixteen channel names differ |
| Registry.AddKeepsInStep | websocket.go:714-720 | After an addition every entry is still indexed once under its own channel |
| Registry.AddExactIff | websocket.go:714-720 | The index stays exact if and only if it was and the key was not in use |
| Registry.RemoveKeepsInStep | websocket.go:1067-1082 | A removal takes the entry out of both stores and leaves the others |
| Registry.IndexFindsWhatScanFinds | websocket.go:426-453 | An exact index finds for every message the same subscriptions as a scan of all entries with the match functions; any index finds at least those |
| Registry.OtherUserMatchesIff | websocket.go:496-655 | A message that names another user matches a user's subscription of its channel exactly for order updates |
| Registry.CoinMatchesIff | websocket.go:525-655 | An order book, best offer or asset context goes to a subscription exactly if its coin field is the text of the subscription's coin |
| Registry.TradesMatchIff | websocket.go:507-523 | Trades go to a subscription exactly if some item of the array names its coin |
| Registry.CandleMatchesIff | websocket.go:657-673 | A candle goes to a subscription exactly if it names its interval and no other coin |
| Registry.UserMatchesIff | websocket.go:496-643 | A user's message goes to the user's subscriptions; asset data needs the coin and no other user, and order updates go to all |
| Registry.Client.AddSubscription | websocket.go:676-730 | For one caller at a time: skipped exactly for a user who is on the channel, otherwise filed under the key and put last in its channel's list alone; exact if and only if it was and the call was skipped or the key free |
| Registry.Client.Subscribe | websocket.go:1093-1354 | Each Subscribe method keeps every entry under its rebuilt key |
| Registry.Client.RemoveSubscription | websocket.go:1062-1090 | Closes the channel of the entry, which is open, removes it from both stores, and leaves all others in their lists |
| Registry.Client.Disconnect | websocket.go:250-271 | Closes every entry's channel, none twice, and empties both stores |
| Registry.Client.Dispatch | websocket.go:426-453 | For one caller at a time: every matching handler of the channel gets the message once, as far as it fits, and no other; one that goes by coin gets it exactly if it is of its coin, one of a user exactly if it names the user; no channel is closed |
| Registry.Client.Resubscribe | websocket.go:901-964 | If all saved keys are in use, a reconnect leaves both stores unchanged |
| Registry.Client.Reconnect | websocket.go:853-964 | Saving and filing again leaves both stores unchanged when entries lie under their rebuilt keys |
| Registry.ReconnectFindsAll | websocket.go:853-870 | When entries lie under their rebuilt keys, a reconnect finds all saved keys in use |
| Registry.LiveUserKeyIsSkipped | websocket.go:677-692 | A live key that names a user is never re-subscribed |
| Registry.SecondCoinIsSkipped | websocket.go:677-692 | A user's second coin on the active-asset channel is not filed |
| RegistryDelivery.DeliveredIsMeant | websocket.go:426-453 | In every run all that waits in a subscription's channel came with a message that had arrived on the subscription's channel and matches it |
| RegistryDelivery.DeliveredIsOwn | websocket.go:426-673 | In every run nothing waits for a subscription of a coin that is not of that coin, nor for one of a user that does not name the user |
| RegistryDelivery.LoneDispatch | websocket.go:426-453 | From every state a dispatch that runs alone offers the message once to every subscription in its channel's list, and changes nothing else |
| RegistryDelivery.LoneSubscribe | websocket.go:676-730 | From every state a subscribing call that runs alone does nothing for a user who is on the channel, and otherwise files one subscription and puts it last in its channel's list |
| RegistryRuns.NeverClosedTwice | websocket.go:676-730 | In every interleaving of subscribing, dispatching, unsubscribing and disconnecting no channel is closed twice; every entry is open and listed under its channel, and a list holds open subscriptions of its channel, each once |
| RegistryRuns.InsertOnceIff | websocket.go:712-720 | Filing leaves a user one subscription on a channel if and only if it has none at that moment, whatever the look before it saw |
| RegistryRuns.OverlappingAddsFileTwo | websocket.go:676-720 | From every state in which a user has none on a channel, two calls that both look before either files leave it two |
| RegistryDispatch.PanicsAloneIff | websocket.go:438-452 | A dispatch that from now on runs alone panics if and only if it is about to send to a closed channel or a closed matching subscription lies in a place it has yet to load |
| RegistryDispatch.EndangersIff | websocket.go:426-453 | A step of another call brings a dispatch into that danger if and only if it closes a subscription to which the dispatch is about to send, or which matches and is still in a place it has yet to load |
| RegistryDispatch.NeverPanics | websocket.go:426-453 | If no step closes a subscription that a dispatch under way will come to, the client never panics |
| RegistryDispatch.RemovalPanics | websocket.go:1062-1090 | From every state, an entry that is removed between the match and the send of a message that matches it panics the client |
| RegistryDispatch.StaysBehindIff | websocket.go:1075-1080 | The shift of the list in place leaves the removed subscription visible to a dispatch that holds the old list if and only if it was the last |
| PostRequests.NeverPanics | websocket.go:400-423 | Nothing is sent to a closed response channel and none is closed twice |
| PostRequests.AnsweredByTheFirst | websocket.go:1357-1408 | A request returns the first response with its id since it was registered; an empty answer means that it was disconnected before any came |
| PostRequests.NotAnsweredTwice | websocket.go:1357-1408 | No response is returned to two requests |
| PostRequests.IdsDiffer | websocket.go:1358 | Requests have different ids |
| PostRequests.ResponseIsWaiting | websocket.go:410-421 | While a request waits, a response that came for it is in its channel |
| PostRequests.NothingPending | websocket.go:1366-1371 | When all requests have returned, no entry is left in the map |
| PostRequests.RoundTrip | websocket.go:1357-1408 | From every state a request whose response comes while it waits returns it and leaves the map as it was |
| PostRequests.DisconnectWakesAll | websocket.go:250-271 | After a disconnect every request that waits can go on, and none is pending |
| AuthCache.AnswersAreRecent | relay/internal/auth/auth.go:53-115 | In every run of overlapping calls, what is returned had, at a time during the call, an active tenant, a usable key and no end in the past, and stood in the table no longer than the time to live before the call began |
| AuthCache.GrantedIff | relay/internal/models/models.go:121-132 | A row is granted exactly if its tenant is active, its key usable and its end, if any, not past |
| AuthCache.ExpiredIff | relay/internal/auth/auth.go:90-102 | A row is reported as expired exactly if it is marked so or its end is past, and neither tenant suspended nor key revoked |
| AuthVerdicts.RefusalsAreRight | relay/internal/auth/auth.go:80-102 | In every run a refused call met, during the call, a table in which its key had the reason that it was told |
| AuthVerdicts.OneVerdict | relay/internal/auth/auth.go:53-115 | In every run a call that has ended was either answered or refused, once |
| AuthVerdicts.LoneCall | relay/internal/auth/auth.go:53-115 | From every state a call that runs alone is answered from a young entry in order, else from the table, which fills the cache, or refused for the reason in the table; a young entry not in order is removed |
| AuthVerdicts.CleanupChangesNothing | relay/internal/auth/auth.go:208-218 | A cleanup drops exactly the entries that are too old to be used |
| AuthCache.OldAnswerIff | relay/internal/auth/auth.go:118-124 | After an invalidation a later call can be answered from before it if and only if a call that had queried the table earlier had yet to fill the cache with what is still valid and not too old |
| AuthCache.InvalidatedAnswersAreCurrent | relay/internal/auth/auth.go:118-124 | Otherwise later calls return the current row until the table changes |
| AuthCache.InvalidMeansDeleted | relay/internal/auth/auth.go:90-102 | An existing key is reported as merely invalid exactly when it is in order and its tenant was deleted; suspension is reported first, then revocation |
| AuthCache.DeniedStaysDenied | relay/internal/auth/auth.go:90-102 | A denied key stays denied as time passes, for the same reason unless it was merely invalid |
| AuthService.Service.Authenticate | relay/internal/auth/auth.go:53-115 | What is returned has an active tenant, a usable key and no end in the past, and is the cached entry if that is young and in order, else the table's row now; a refusal is that of the table, and the whole new cache is given |
| AuthService.Service.CleanupCache | relay/internal/auth/auth.go:208-218 | Drops exactly the entries that are too old |
| AuthService.InvalidateThenAuthenticate | relay/internal/auth/auth.go:118-124 | For one caller at a time the call after an invalidation is judged by the table as it is then |
| Backoff.DelayIff | relay/internal/upstream/manager.go:241-256 | The delay is the intended one exactly when the product fits 63 bits, or wraps to no less than the maximum |
| Backoff.DelaysGrow | relay/internal/upstream/manager.go:195-199 | As long as the product fits, the delay is the capped product and never decreases from attempt to attempt |
| Backoff.DefaultDelayIff | relay/internal/upstream/manager.go:242-256 | With the default configuration the delay is the intended one for exactly the attempts up to 37 and seven later ones |
| Backoff.DefaultDelays | relay/internal/upstream/manager.go:242-256 | In nanoseconds: 100 million doubled per attempt up to the ninth, then 30 thousand million up to attempt 37 and for seven later ones; 0 or negative for all others |
| Backoff.DefaultsThatWrap | relay/internal/upstream/manager.go:242-253 | What the default product wraps to at every attempt from 37 on: 0 from attempt 57 on |
| Backoff.NoDelayInTheEnd | relay/internal/upstream/manager.go:253 | From attempt 65 on the delay is 0 for every configuration |
| Backoff.JitterWithinTenth | relay/internal/upstream/manager.go:258-260 | The jitter stays within a tenth of the delay |
| Backoff.JitterIsEven | relay/internal/upstream/manager.go:258-260 | The result is the delay times nine tenths to eleven tenths, linear in the random number, to within a nanosecond |

## Left out

- Floating point: prices, sizes and the jitter are exact decimals or reals; the error of float64 and of math.Log10 is not modelled, nor is the conversion of integers of 2^63 and more.
- The number of decimals that FloatToWire chooses; only its trimming loop is modelled.
- Wire.SlippageThenWire: for slipped prices that are not negative, as the exchange's price text has no sign here.
- Nonce.NonceGuarantees: for times and counts that stay clear of 2^63.
- RelayDisplaced.DisplacedIff: for a displaced member at its limit, with a full queue, and one publish of the topic under way; for all other joins RelaySlow.JoinKeepsTrackedIff has the exact condition of one step.
- RelayOverlap.OverlapIff: the earlier callback is the only one of the topic and not already bound to panic, the members of the topic are open, and the two books differ after trimming.
- The interval between a recorder's or publisher's plain instructions and the memory model of Go: each atomic operation or locked block is one step. In the state machine the sweep takes one member per locked step; `Fanout.Hub.CleanupZombies` has the loop.
- Trades inside the callback, LastSend and lastUpdate times in the state machine, the emitter and its handlers.
- The gap between AddTrade's lookup of a buffer and its addition, in which Cleanup can drop the buffer.
- Averaged latency, failing upserts and 64-bit overflow of the usage counters.
- The token bucket of the rate limiter, and overlapping calls of the stream limiter, each of whose operations holds a lock.
- In the state machine of the registry a removal shifts its list in one step under the lock, and one load of a dispatch sees one place before or after it; a load in the middle of the shift can see a place twice, and what is closed is the same.
- Channels are bounded queues: the direct hand-off of a channel without a buffer to a waiting receiver, and the handler goroutines of the client, are not modelled.
- AuthCache.AnswersAreRecent: the query, its judgement and its time stamp are one step; time that passes between query and stamp adds to the age. The Redis cache is a placeholder in the code.
- PostRequests: marshalling, and a write to a connection that is gone, count as a failed write.
- Ring buffers of size 0 and negative counts, on which the code panics.
- HTTP, gRPC and WebSocket plumbing, signing, JSON, configuration, metrics, logging, SQL services, pools, gateways, ping and reconnect timers, and the client's request builders: wiring, library code or field copies.
