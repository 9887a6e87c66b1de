# teleyes, modelled and proved in Dafny

teleyes reads Telegram groups, matches messages against price rules, and alerts people through a bot. A panel
process and a listener process share one SQLite file. This project models the parts in which a mistake shows
late and costs most, and proves what the rest of the program relies on.

The database is maps with atomic transactions. Telegram, the Bot API and the clock are parameters: a call is
confirmed, raises, or is refused before it starts. A protocol is a state machine whose `Step` does nothing when
an action is not possible, so a run is any sequence of actions, interleaved at every point where the program
waits; a property of runs is proved over all of them. Code that updates objects in loops is a class with methods,
each proved against the functions or the machine the lemmas are about.

| module | what it covers |
|---|---|
| `Options`, `Chat` | result shapes; cursors and postings, shared by several parts |
| `Broker` | live events: history, bounded queues, eviction, replay by last event id (section 9.2 of the HTML Living Standard) |
| `Pipeline` | one message against one rule: the atomic write phase |
| `Alerts` | the network phase, retries, resend, deletion and crashes, interleaved: at most one confirmed alert |
| `Postings` | match identity, suppression, historical scan |
| `Promotions` | one alert per promotion within the grouping window |
| `Listener` | the imperative form of the above: notifier, retries, resend, dedupe cache |
| `Digest` | the daily digest: one run a day, reservation before each call, counters |
| `CatchUp` | cursors, backfill, failed live messages, configuration swaps |
| `Feed` | read-time folding of matches into cards |
| `Prices` | the price printer, the typed-price parser, the message reader |
| `Mailbox` | the reload row between panel and listener |
| `Corrections` | manual edits, reverts, manual target alerts |
| `Sparkline` | the rule chart |
| `Supervisor` | reconnecting with backoff |
| `Watcher` | turning another process's matches into events |
| `Product` | part-code runs and the product key |

`dafny verify dfyconfig.toml` checks everything.

Where the code differs from its own documentation, or from what one would expect of it, the code is modelled:

- `packages/events/broker.py:89-94` promises a full queue a replay or a resync; with queues longer than one the
  oldest queued event is lost without either (`Broker.LargerQueuesLoseAnEvent`).
- `apps/api/app/listener_lifecycle.py:337-361` promises that a newly listened source never alerts retroactively;
  it can, exactly when something of the source was left over (`CatchUp.SwapIsRetroactiveIffSomethingIsLeftOver`,
  `CatchUp.RemovedSourceIsAlertedAgain`).
- `apps/api/app/listener_control.py:56-65` says every field that changes what the listener does is in the
  fingerprint; the target price is not (`Mailbox.TargetEditsGoUnnoticed`).
- `apps/api/app/routers/matches.py:727-735` says a PATCH cannot clear the model variant; it does exactly when blank
  text is sent for it (`Corrections.BlankTextClearsTheVariant`).
- `apps/api/app/digest.py:301-324` counts planned items, so a match deleted between planning and reservation is
  counted as sent, and only then (`Digest.ReservationCountsWhatItMovesIffAllAreThere`,
  `Digest.DeletedMatchIsCountedAsSent`).
- `packages/rules/price.py:92-97` calls the cash price the lower one; nothing checks it (`Prices.CashMayExceedCard`,
  `Prices.CashIsLowerIffItStandsLower`).
- `apps/api/app/match_watcher.py:167-169` never shrinks the map it loops on: past 500 pending matches it does not
  end (`Watcher.CapLoopNeverEnds`). Elsewhere the model assumes the cap is not passed.

## Model

| member | source | states |
|---|---|---|
| Broker.StreamIsGapless | apps/api/app/routers/events.py:36-65 | over any run of connects, publishes, reads and disconnects, what a client receives goes on from its last id without gap, repeat or reorder; only a resync, or the one event an eviction dropped, may interrupt it |
| Broker.SubscribedClientCatchesUp | packages/events/broker.py:50-87 | nothing is left behind: after any run, a client connected and not evicted gets to the newest event published by reading what waits for it |
| Broker.ReceivedIdsIncrease | packages/events/broker.py:50-107 | received ids strictly increase, across reconnects, evictions and resyncs |
| Broker.SmallOrUnboundedQueuesLoseNothing | packages/events/broker.py:89-107 | with a queue of one, or an unbounded one, an eviction costs the client no event |
| Broker.LargerQueuesLoseAnEvent | packages/events/broker.py:99-107 | with every larger queue there is a run in which the evicted client misses its oldest queued event with no resync |
| Broker.EvictionDropsOldest | packages/events/broker.py:99-107 | forcing the sentinel into a full queue removes exactly the oldest item |
| Broker.BacklogIsTheTail | packages/events/broker.py:54-62 | for an id this broker issued the replay is exactly the later events, and a resync is asked for exactly when some of them are no longer held |
| Broker.RememberKeepsTheTail | packages/events/broker.py:72-75 | the history is always the newest published events, at most its size |
| Broker.ForeignIdsGoBackwards | packages/events/broker.py:72-73 | an id from an earlier process is outside the promise: a run in which such a client sees an id go back to 1 |
| Broker.WithoutHistoryGapsAreSilent | packages/events/broker.py:54-62 | a broker without history misses an event without asking for a resync: the condition on the history size is needed |
| Broker.Replay | packages/events/broker.py:62 | the backlog loop returns the remembered events newer than the given id, in order |
| Broker.EventBroker.constructor | packages/events/broker.py:40-45 | a new broker has no subscriber and has published nothing |
| Broker.EventBroker.Subscribe | packages/events/broker.py:50-67 | a fresh own queue, the backlog or a resync, nothing else changed |
| Broker.EventBroker.Unsubscribe | packages/events/broker.py:69-70 | exactly this subscriber leaves; an unknown one changes nothing |
| Broker.EventBroker.Publish | packages/events/broker.py:72-87 | the event gets the next id, every queue with room gets it, exactly the subscribers whose queue was full are removed and closed |
| Broker.EventBroker.OfferAll | packages/events/broker.py:77-82 | who is stuck, and what every queue holds after the offer |
| Broker.EventBroker.EvictAll | packages/events/broker.py:84-85 | every stuck subscriber is evicted and no other queue changes |
| Broker.EventBroker.Evict | packages/events/broker.py:89-107 | the queue ends with the sentinel; the loop terminates |
| Broker.StreamClient.Connect | apps/api/app/routers/events.py:42-51 | subscribing with the browser's last id is the connect step of the machine |
| Broker.StreamClient.Read | apps/api/app/routers/events.py:48-63 | each thing the generator yields is the read step: the resync notice, the backlog, the queue; the closing mark unsubscribes and ends it |
| Broker.StreamClient.Disconnect | apps/api/app/routers/events.py:64-65 | whenever the generator ends, its subscription is gone |
| Broker.StreamClient.Publish | packages/events/broker.py:72-107 | what the broker does to this client's queue, eviction included, is the publish step of the machine |
| Broker.ClientStreamIsGapless | apps/api/app/routers/events.py:36-65 | so the object's stream is gapless as the machine's is |
| Pipeline.RollbackIsInvisible | apps/api/app/pipeline.py:715-741 | with the signature forgotten, the retry of an attempt rolled back on a locked database does what the attempt would have done, whichever branch that is |
| Pipeline.WritePhaseShape | apps/api/app/pipeline.py:438-660 | a write phase stores at most one match, under a fresh id, only for a posting neither stored nor suppressed, with rows for that match only; it leaves a match to alert only if the promotion has no `sent` row of that kind (which messages pass: `Pipeline.WhatBecomesOfAMessage`) |
| Pipeline.WhatBecomesOfAMessage | apps/api/app/pipeline.py:190-279 | on the fields: discarded as blocked, as without term, or as above the ceiling exactly for that; a duplicate exactly when it passes and its signature was seen, or its message is stored or deleted for this rule; stored as it is otherwise; the cursor moves over it in each case |
| Pipeline.WhoHearsOfAMessage | apps/api/app/pipeline.py:478-668 | who hears of a new match, and how: the target channel, the snoozes, the fifteen-minute window, the digest and the preferences spelled out on the fields; exactly the recipients it is for get the alert or the row |
| Pipeline.TargetPiercesSnoozeAndDigest | apps/api/app/pipeline.py:545-668 | a price at its target is sent through any snooze and any digest, and kept back exactly when the same promotion was already sent as a target alert |
| Pipeline.Eligible | apps/api/app/pipeline.py:552-560 | a match goes to exactly the candidates whose preferences admit it, each once |
| Pipeline.EveryRecipientIsAccountedFor | apps/api/app/pipeline.py:533-668 | of a match just stored exactly the eligible recipients get something, a bookkeeping row or an alert to come; under a snooze that holds, nobody does |
| Pipeline.RecipientsAreDistinct | apps/api/app/pipeline.py:552-560 | no recipient is alerted twice by one write phase |
| Alerts.AtMostOneConfirmedAlert | apps/api/app/pipeline.py:438-806 | however live messages, send retries, resends, deletions and crashes interleave, each (match, recipient) gets at most one confirmed send, if no crash comes while a confirmed alert still has a `failed` row |
| Alerts.CrashIsHarmlessIffNoRowLagsBehind | apps/api/app/delivery_retry.py:119-174 | after any run so far, a crash leaves at-most-once intact for every continuation exactly when no confirmed alert still has a `failed` row |
| Alerts.CrashBeforeTheRowIsWrittenRepeats | apps/api/app/delivery_retry.py:133-174 | such a crash does arise: from boot, any message that goes out can fail, be resent and confirmed, and be confirmed a second time after the crash |
| Alerts.UnsafeCrashCanRepeat | apps/api/app/delivery_retry.py:133-174 | from every state with such a row and its match one crash and one resend send the alert again |
| Alerts.CrashesAreHarmlessOutsideAResend | apps/api/app/delivery_retry.py:119-174 | the only such moment is between a resend's send and its status write, or after that write was given up |
| Alerts.HistoricalShape | apps/api/app/pipeline.py:955-999 | the non-notifying path stores one new match with `historical` rows and moves no cursor |
| Alerts.WhatHistoryStores | apps/api/app/pipeline.py:955-999 | on the fields: the non-notifying path stores a message that passes and is neither stored nor deleted, with a `historical` row for exactly those it is for, and moves no cursor |
| Alerts.SentRowsWereConfirmed | apps/api/app/pipeline.py:760-806 | the panel never shows an alert as sent that did not go out: in every reachable state, after any crash, deletion or resend, an alert row that says `sent` stands for a confirmed send |
| Postings.MatchesAreUnique | apps/api/app/pipeline.py:218-279 | in every reachable state one match per (source, rule, message id), and none for a suppressed message |
| Postings.AtMostOneAlertPerPosting | apps/api/app/pipeline.py:218-279 | so no recipient is confirmed the same posting twice, under any match id |
| Postings.SiblingsGoTogether | apps/api/app/match_deletion.py:18-67 | a deletion takes every stored match of the same chat message |
| Postings.DeletionTakesTheMessage | apps/api/app/match_deletion.py:18-67 | a deletion takes exactly the matches named and those of the same chat messages, with the rows of both; it suppresses exactly the messages named and leaves all else as it was |
| Postings.RunHistoricalScan | apps/api/app/pipeline.py:1002-1045 | the nested loops of a scan do what the step-by-step scan does |
| Postings.RescanChangesNothing | apps/api/app/pipeline.py:1002-1045 | a repeated scan of the same messages and rules changes no match, row or cursor, whatever the panel settings are then |
| Postings.ScanSettlesAll | apps/api/app/pipeline.py:1002-1045 | after a scan every item is discarded, suppressed or stored, and the scan only added |
| Promotions.SequentialRunsNeverRepeat | apps/api/app/pipeline.py:282-333 | processed one message at a time, no two matches of one rule and price within the window both get a `sent` row of one kind, in whatever order timestamps come |
| Promotions.RepeatsOverlapInTime | apps/api/app/pipeline.py:282-333 | in any run at all, two such rows mean that each match was stored before the other was first recorded as sent |
| Promotions.OverlapCanRepeat | apps/api/app/pipeline.py:670-712 | and overlap does repeat: from boot, any two messages of one promotion from different sources that go out both get a `sent` row when both are cleared before either outcome is recorded |
| Listener.BotNotifier.Notify | packages/notifications/bot.py:65-79 | not configured, not allowlisted, duplicate, confirmed or raised, in this order; only a confirmed pair is remembered |
| Listener.BotNotifier.SetAllowlistedChatIds | packages/notifications/bot.py:40-46 | a reload replaces the list and keeps the memory |
| Listener.Process.NotifyWithRetry | apps/api/app/pipeline.py:404-435 | up to three attempts; exactly one confirmed send when it reports `sent`, none otherwise |
| Listener.Process.ProcessMessage | apps/api/app/pipeline.py:438-712 | the write phase, then the calls, then the outcome write, each a step of the machine; the database, the dedupe cache and the outcomes it leaves are exactly those of the write phase (on the fields: `Pipeline.WhatBecomesOfAMessage`, `Pipeline.WhoHearsOfAMessage`) and the calls, and it reports the confirmed sends |
| Listener.Process.Alert | apps/api/app/pipeline.py:670-712 | the loop over recipients: one outcome for each of them, the rows written from exactly these, as many confirmed sends as outcomes `sent` |
| Listener.Process.Finish | apps/api/app/pipeline.py:760-806 | the outcome rows are written, one for each outcome, or the alert is left without rows and the database as it was |
| Listener.Process.ResendFailedDeliveries | apps/api/app/delivery_retry.py:133-174 | the resend loop takes only resend steps and reports the confirmed sends; a status write given up ends the pass; all it changes in the database is some of its candidates from `failed` to `sent` |
| Listener.Process.MarkSent | apps/api/app/delivery_retry.py:119-130 | only a row that is still `failed` becomes `sent` |
| Listener.ProcessAlertsAtMostOnce | apps/api/app/pipeline.py:438-806 | whatever sequence of these methods ran since boot, no pair was confirmed twice |
| Listener.DedupeCache.ShouldProcess | packages/rules/dedupe.py:70-82 | lets a signature through when it is new or its window has passed, and remembers when |
| Listener.DedupeCache.Forget | packages/rules/dedupe.py:84-90 | exactly this signature is forgotten |
| Listener.DedupeCache.RetryAfterRollback | apps/api/app/pipeline.py:661-667 | an attempt that rolls back and forgets its signature is followed by a retry that is let through, and the cache ends as if only the retry had been made |
| Digest.DigestRowsGoOutOnce | apps/api/app/digest.py:227-379 | over any ticks on any dates, with a stop between any two steps, a row is in at most one started call, and is `sent` only if that call was confirmed |
| Digest.OneRunADay | apps/api/app/digest.py:253-266 | once a date was opened no second run of it ever starts, however the first one went and whatever came after |
| Digest.CountersMatchTheRows | apps/api/app/digest.py:301-372 | a run's counters are the sizes of what it reserved and kept, give-backs included; they count moved rows exactly when no reservation missed a row, and overstate otherwise |
| Digest.ReservationCountsWhatItMovesIffAllAreThere | apps/api/app/digest.py:301-324 | each counter of a reservation goes up by the rows it moved exactly when every match planned there is still stored, by more otherwise; what it misses are the rows of deleted matches |
| Digest.DeletedMatchIsCountedAsSent | apps/api/app/digest.py:301-324 | a run from boot: a match deleted between planning and reservation is recorded as one item sent though no row moved |
| Digest.CountersAreExact | apps/api/app/digest.py:301-372 | if deletions spare planned matches, the counters equal the rows moved at every commit |
| Digest.PlanTakesTheCheapest | apps/api/app/digest.py:283-299 | on the fields: a plan takes min(top_n, queue) items, and no item left over has a price where one taken has none, a lower price, an earlier time at one price, or a lower id at one time; nothing pending is left out of both |
| Digest.QueueIsCheapestFirst | apps/api/app/digest.py:139-146 | of two items of a queue the earlier one has a price if the later one has, and is cheaper, or as cheap and older, or both and of lower id |
| Digest.HandledMeansBestGoOut | apps/api/app/digest.py:283-372 | what a run means for a recipient: the min(top_n, pending) best offers are marked, no one left over is better, and what is left over is skipped; a refused call moves nothing |
| Digest.LoadPendingQueue | apps/api/app/digest.py:108-147 | the loop returns the recipient's pending items, all of them and no others, with their match's price and time, each no dearer, no later and no higher in id than the next |
| Digest.SortedIsUnique | apps/api/app/digest.py:139-146 | that order leaves one list, whatever order the database returned |
| Digest.DigestRunner.RunDigestOnce | apps/api/app/digest.py:227-379 | one run per local date; every unblocked recipient's best top_n pending offers go out and the rest is skipped, as the reply to the call says; nobody else's rows change |
| Digest.DigestRunner.SendPlans | apps/api/app/digest.py:304-372 | after k plans, the first k recipients are done and all other rows are as before |
| Digest.DigestRunner.SendPlan | apps/api/app/digest.py:304-372 | reserve, call, and confirm, keep or give back |
| Digest.DigestRunner.PlanRecipients | apps/api/app/digest.py:283-299 | a plan for every unblocked recipient with a queue, and for nobody else |
| Digest.AnsweredPlanIsHandled | apps/api/app/digest.py:169-194 | the compare-and-set updates move a plan's own pending rows to their final state and nobody else's |
| CatchUp.FailedMessagesAreNeverForgotten | apps/api/app/listener_lifecycle.py:166-279 | a message whose processing failed the last time, live or in a catch-up, is at or above its source's floor, or in the running pass, after any run; a read drops it only when its bounds left it out |
| CatchUp.CatchUpRerunsTheRemembered | apps/api/app/listener_lifecycle.py:249-279 | the next catch-up whose bounds cover a remembered message has it in its batch |
| CatchUp.RunNeverMovesCursorsBack | packages/telegram/cursor.py:55-70 | no run of live writes, reads and initialisations moves a persisted cursor backward or removes one |
| CatchUp.SwapIsRetroactiveIffSomethingIsLeftOver | apps/api/app/listener_lifecycle.py:337-382 | after a swap makes a source live at head h, a message at or below h can reach the notifying path exactly when a floor or an unfinished message of the source at or below h was left over |
| CatchUp.SwapNeverAlertsWhatWasThere | apps/api/app/listener_lifecycle.py:337-382 | on the messages themselves: with nothing left over, no message posted before the swap began to read the heads is ever alerted |
| CatchUp.BootNeverAlertsRetroactively | apps/api/app/pipeline.py:911-952 | of any source a boot registers that had no cursor before it, the head was read, no message the boot found in the chat is above it, and no message at or below it is ever alerted, whatever live messages, catch-ups and swaps follow |
| CatchUp.LeftoverFloorIsRetroactive | apps/api/app/listener_lifecycle.py:217-260 | the floor of a removed source survives, and its next catch-up reads from there |
| CatchUp.LeftoverFloorIsReadAgain | apps/api/app/listener_lifecycle.py:249-279 | under any bounds that reach the remembered message, the program's own included, the next catch-up passes it to the notifying path |
| CatchUp.RemovedSourceIsAlertedAgain | apps/api/app/listener_lifecycle.py:337-382 | the failing half does arise: a run from boot in which a source with a failed message is swapped out and in again, the swap allowed, and the message alerted though at the head of that moment |
| CatchUp.BackfillReturnsTheCovered | packages/telegram/cursor.py:73-118 | a read returns exactly the messages past the cursor or at and above the remembered floor, no older than the cutoff, among the newest `limit` |
| CatchUp.CursorTable.BackfillSinceCursor | packages/telegram/cursor.py:73-118 | for any page the loop collects only messages past the cursor or floor and no older than the cutoff, all of them on a page within the limit, and moves the cursor to the newest of them |
| CatchUp.CatchUpsNeverAlertTooOld | packages/telegram/cursor.py:104-110 | over any run of the process, no message that a read's cutoff excludes is passed on from its batch to the notifying path |
| CatchUp.CursorTable.AdvanceCursor | packages/telegram/cursor.py:55-70 | forward only |
| CatchUp.ListenerLifecycle.HandleLiveMessage | apps/api/app/listener_lifecycle.py:166-209 | every rule runs, the cursor moves if one got the database, the message is remembered if one did not; an unlistened chat changes nothing |
| CatchUp.ListenerLifecycle.CatchUpSource | apps/api/app/listener_lifecycle.py:249-279 | a read that raises puts the floor back; otherwise the whole batch runs in order and the floor left is the least failing id |
| CatchUp.ListenerLifecycle.RerunBatch | apps/api/app/pipeline.py:848-876 | every message of a batch runs, failures are remembered and do not stop the rest |
| CatchUp.RememberAllKeepsTheLeast | apps/api/app/listener_lifecycle.py:217-218 | a floor is the least of the old one and the ids that failed |
| CatchUp.ListenerLifecycle.InitialiseCursors | apps/api/app/listener_lifecycle.py:362-372 | sources already live keep their cursors, every other one reaches its head |
| CatchUp.ListenerLifecycle.ApplyConfig | apps/api/app/listener_lifecycle.py:337-382 | the new set is live, or the old one with nothing swapped |
| Feed.ChainsAreComponents | apps/api/app/routers/matches.py:393-410 | two cards share a chain exactly when a walk of cards of one rule (or product) and one price, each at most fifteen minutes from the next, joins them |
| Feed.ChainUp | apps/api/app/routers/matches.py:399-408 | the loop over a sorted group builds those chains |
| Feed.GroupBy | apps/api/app/routers/matches.py:393-398 | the dictionary of groups |
| Feed.CollectChains | apps/api/app/routers/matches.py:472-489 | every chain of two or more, and only chains |
| Feed.ApplyDisplayGrouping | apps/api/app/routers/matches.py:382-412 | of the cards of one rule and price joined by steps of at most fifteen minutes exactly one stays, with a `sent` delivery if any has one, the earliest such; a hidden card has such a one of its own rule and price, a card with no other near it stays, a card without a price stays, and what stays keeps its order |
| Feed.AttachGroups | apps/api/app/routers/matches.py:351-379 | every card but its chain's representative is hidden |
| Feed.ApplyDuplicateGrouping | apps/api/app/routers/matches.py:447-501 | the grouped ids partition what came in; two matches share an entry exactly when the toggle is on, steps of at most fifteen minutes over cards of one product and price join them, and two different messages are among those; the card shown is the earliest, the count is the number of postings, the order stays |
| Feed.FoldedIsOneOffer | apps/api/app/routers/matches.py:447-501 | matches fold only if they are of one product at one price, and a match with no other of its product and price near keeps its own card |
| Feed.PostingsAreTheMessages | apps/api/app/routers/matches.py:425-431 | two matches are one posting exactly when they are of one chat message of one source |
| Feed.AttachDuplicateGroups | apps/api/app/routers/matches.py:415-444 | exactly the first card of each folding chain is widened and the others hidden |
| Feed.SameKeyIsOneChain | apps/api/app/pipeline.py:1051-1078 | equal live group keys imply the same second-stage chain |
| Feed.OneKeyIsOneQuarter | apps/api/app/pipeline.py:1051-1078 | two cards have one live key exactly when they are of one product at one price within one quarter of an hour of the clock |
| Feed.OneChainCanHaveTwoKeys | apps/api/app/pipeline.py:1051-1078 | not the other way round, at a bucket's edge |
| Feed.RepresentativeIsEarliest | apps/api/app/routers/matches.py:374-376 | the representative is the earliest among members like it |
| Prices.PrintedPricesReadBack | packages/notifications/formatting.py:12-17 | typing back a printed amount gives it back exactly when it is positive; zero is refused as not positive, negatives as no price |
| Prices.GroupedReadsBack | packages/notifications/formatting.py:16 | a number printed with dotted thousands reads back, plain exactly below a thousand |
| Prices.FormatsAreDisjoint | packages/rules/manual_price.py:23-30 | no text is in two of the five typed formats |
| Prices.TrailingZeroChangesNothing | packages/rules/manual_price.py:38-39 | one decimal means tens of cents: the zero behind it may be written or not |
| Prices.WholeAmountsReadTheSame | packages/rules/manual_price.py:50-66 | a whole amount is worth the same with its thousands dotted or not |
| Prices.BareIsWhatIsTyped | packages/rules/manual_price.py:48-50 | of a typed text exactly the spaces around it, one currency sign and the spaces behind that are left out |
| Prices.ParsersAgreeExceptOnDotDecimals | packages/rules/price.py:112-119 | the reader's conversion equals the typed one on every format but dot-decimal, where it is 10 or 100 times as much |
| Prices.PrintedIsOneFind | packages/rules/price.py:4-33 | the money pattern finds a printed price whole, once, with currency and no installment |
| Prices.FoundValuesAreReadable | packages/rules/price.py:112-119 | every value the pattern can find converts: the conversion never fails on a message |
| Prices.CommaThousandsAreFoundWhole | packages/rules/price.py:14-29 | a number with comma thousands is found whole, never cut after two digits |
| Prices.PrintedPricesAreExtracted | packages/rules/price.py:232-290 | for every amount the reader finds one unambiguous price in what is printed, worth its absolute value |
| Prices.ExtractPrice | packages/rules/price.py:232-290 | the whole reader: candidates, coupon values dropped, then the choice (what the candidates are on the text: `Prices.KeptAreTheAmountsButCoupons`) |
| Prices.KeptAreTheAmountsButCoupons | packages/rules/price.py:189-263 | on the text: what the price is chosen from is exactly the finds with `R$` in front or a comma in them, marked as installments or not, except the nearest on the confirmed side of a coupon word with only spaces, punctuation and one "de" in between |
| Prices.EveryDigitIsFound | packages/rules/price.py:4-33 | no number is overlooked: every digit of a text lies in a find |
| Prices.ValueReachesAsFarAsItsForm | packages/rules/price.py:7-32 | how far a value reaches: all of its dotted thousands with the two decimals behind them, or all of its comma thousands with no digit lost behind them, or its leading digits with the two decimals behind them, the first that fits |
| Prices.InstallmentIffMarked | packages/rules/price.py:5 | a find is an installment exactly when one or two digits, spaces, an x, spaces and an optional "de" stand from its start up to its currency sign or value |
| Prices.MarksAreOnlyLostToFinds | packages/rules/price.py:245-253 | no such mark before a find's value is overlooked unless an earlier find took the place where it begins |
| Prices.UnmarkedAmountIsThePrice | packages/rules/price.py:232-290 | through scanner and choice: of a text with two amounts, one marked as an installment, and no cash or coupon word, the other is the price, not in doubt, whichever is the lower |
| Prices.TotalAfterInstallment | packages/rules/price.py:232-290 | such texts in full: any mark, an amount, anything without a digit or `$`, and another amount, which is the price |
| Prices.InstallmentIsNotThePrice | packages/rules/price.py:232-290 | so `12x de R$ 100,00 ou R$ 900,00` costs 900 reais |
| Prices.DistanceIsToTheNearestPlace | packages/rules/price.py:126-132 | how near a value is to a word: the distance to the nearest place of its span |
| Prices.DropCouponCandidates | packages/rules/price.py:189-229 | exactly the candidates that are no coupon's value are kept |
| Prices.ChosenPriceIsOffered | packages/rules/price.py:264-290 | the price is one of the values kept; cash and card come together, differ, and the price is the cash one |
| Prices.LeastTotalIsChosen | packages/rules/price.py:281-290 | otherwise the least total, ambiguous exactly when totals differ; with installments only a price exactly when they agree |
| Prices.CashIsLowerIffItStandsLower | packages/rules/price.py:149-186 | two prices are read exactly when two different amounts stand by the one cash anchor and by the card anchor or the one installment; the cash price is at most the card price exactly when the amount by the cash anchor is at most the other |
| Prices.FirstIsCashSecondIsCard | packages/rules/price.py:232-290 | through scanner, candidates, coupon filter and choice: of a text with two amounts, the one nearest the cash anchor is the cash price and the other the card price, whichever is lower |
| Prices.CashMayExceedCard | packages/rules/price.py:92-97 | nothing makes the cash price the lower one: the whole reader takes 200 reais as cash and 100 as card from `R$ 200,00 pix R$ 100,00 cartao` |
| Mailbox.AtMostOneApply | apps/api/app/listener_control.py:112-121 | however many workers poll, one is between claim and outcome write |
| Mailbox.AcceptedRequestsAreAnswered | apps/api/app/listener_control.py:94-121 | an accepted request is answered by a load taken after it, or that load is still ahead |
| Mailbox.LoadedConfigurationIsSwappedIn | apps/api/app/listener_reload.py:71-116 | what is swapped in and recorded is what was loaded, whatever is edited meanwhile, and the notice then compares with it |
| Mailbox.UnappliedChangesAreSeen | apps/api/app/listener_control.py:217-241 | with no apply past its swap and no outcome lost, the notice shows exactly when the fingerprints differ |
| Mailbox.LostOutcomeSticksUntilBoot | apps/api/app/listener_reload.py:118-124 | a row left applying refuses every request and swaps nothing until a boot |
| Mailbox.LostOutcomeLeavesItStuck | apps/api/app/listener_reload.py:118-124 | which is what a lost outcome write leaves, and what a boot ends |
| Mailbox.FingerprintForgets | apps/api/app/listener_control.py:56-74 | two configurations have one fingerprint exactly when they agree on sources, recipients and, rule by rule, on id, terms and ceiling, no excluded terms and empty ones counting as one |
| Mailbox.TargetEditsGoUnnoticed | apps/api/app/listener_control.py:66-72 | a new target price of any rule of any configuration never raises the notice, while the listener goes on with the old one |
| Mailbox.ListenerControl.RequestReload | apps/api/app/listener_control.py:94-109 | accepted exactly when none is in flight |
| Mailbox.ListenerControl.ClaimReload | apps/api/app/listener_control.py:112-121 | claimed exactly when pending |
| Mailbox.ListenerControl.RecordApplied | apps/api/app/listener_control.py:124-155 | idle, with the fingerprint of this configuration |
| Mailbox.ListenerControl.RecordFailed | apps/api/app/listener_control.py:171-179 | failed, with the applied fingerprint kept |
| Mailbox.ListenerControl.ReadSnapshot | apps/api/app/listener_control.py:217-241 | the state, and the notice |
| Mailbox.ReloadWorker.PollOnce | apps/api/app/listener_reload.py:54-116 | a pending request is applied, or marked failed with the old configuration running |
| Mailbox.TickIsARun | apps/api/app/listener_reload.py:54-116 | such a tick is a run of the machine |
| Corrections.EditsReplay | apps/api/app/routers/matches.py:905-1001 | after any edits and reverts, replaying a match's correction rows from what was detected gives its current name, variant and price, each `before` being the value in force; its original price stays the first detected one |
| Corrections.RevertRestoresTheDetected | apps/api/app/routers/matches.py:1001-1053 | a revert gives back exactly the first detected price and clears name and variant, on this match only |
| Corrections.RenameReachesTheProduct | apps/api/app/routers/matches.py:955-975 | naming a product renames its other matches and nothing else, one row for each that changed |
| Corrections.EditFields | apps/api/app/routers/matches.py:924-952 | only sent fields that differ change, and the row says exactly that |
| Corrections.BlankTextClearsTheVariant | apps/api/app/routers/matches.py:763-773 | an accepted edit of a match with a variant leaves none exactly when text was sent for it and is blank; it never clears a name, nor touches another match's variant |
| Corrections.OneBlankClearsTheVariant | apps/api/app/routers/matches.py:763-773 | so a single blank, sent alone, is accepted and clears the variant of any match |
| Corrections.MatchStore.UpdateMatch | apps/api/app/routers/matches.py:905-991 | an edit is accepted exactly when the match is there and every field sent passes its check; then each field is as sent or as it was, the first price edit keeps the detected price, other matches of the product get the name if asked and nothing else, with their rows; a refused edit changes nothing |
| Corrections.MatchStore.ApplyName | apps/api/app/routers/matches.py:955-975 | the sibling loop |
| Corrections.MatchStore.RevertMatch | apps/api/app/routers/matches.py:1001-1053 | field by field, with one row when something changed |
| Corrections.ManualTargetIsAlertedOnce | apps/api/app/routers/matches.py:790-897 | however price edits interleave, stop, or race with deletions, a recipient is called at most once for a match's manual target |
| Sparkline.ChartShape | apps/api/app/product_history.py:229-288 | between one and thirty points, days strictly increasing, and the lowest price that dedupe and the outlier cut leave |
| Sparkline.ChartIsUnique | apps/api/app/product_history.py:229-273 | the chart depends on the rows alone, not on their order |
| Sparkline.CutLeavesSomething | apps/api/app/product_history.py:276-288 | the cut keeps every posting from the median up, so something, when no price is negative |
| Sparkline.CutIsAQuarterOfTheMedian | apps/api/app/product_history.py:276-288 | from eight postings on, exactly those below a quarter of the median price are cut; of fewer none |
| Sparkline.CutCouldTakeNegativePrices | apps/api/app/product_history.py:276-288 | which is needed: eight postings at one negative price would all go |
| Sparkline.ChunksFit | apps/api/app/product_history.py:88-102 | ceil(n / ceil(n / m)) is at most m |
| Sparkline.DownsampleShape | apps/api/app/product_history.py:88-102 | at most m points, rising days, the lowest price kept |
| Sparkline.SelectedIsOnePerPosting | apps/api/app/product_history.py:167-180 | one row of every posting, and no posting lost |
| Sparkline.SelectedWins | apps/api/app/product_history.py:167-180 | of a posting a manually priced row wins over any other, of several the one corrected last, and otherwise the one of lowest id |
| Sparkline.SelectPostings | apps/api/app/product_history.py:258-265 | the loop picks, of each posting, the row none outranks, in any row order |
| Sparkline.DailyLowest | apps/api/app/product_history.py:78-85 | one point a day, oldest first, each the lowest of its day |
| Sparkline.DailyIsUnique | apps/api/app/product_history.py:78-85 | there is one such series |
| Sparkline.SparklineOf | apps/api/app/product_history.py:229-273 | the whole chart |
| Supervisor.GivingUpMeansTooManyInARow | packages/telegram/connection_supervisor.py:194-256 | the count is reached exactly when the last `max_consecutive_failures` cycles failed and none after the first of them had a stable connection |
| Supervisor.UnstableRunsEnd | packages/telegram/connection_supervisor.py:194-256 | with no stable connection the loop is over within that many cycles |
| Supervisor.DelayIsBounded | packages/telegram/connection_supervisor.py:79-83 | every wait lies between the low end of the jitter around the capped exponential and the cap, or the wait the server asked for |
| Supervisor.CappedGrowsByTheFactor | packages/telegram/connection_supervisor.py:79-83 | the wait before jitter starts at the base and grows by the factor with each failure until the cap, and no more after the sixty-fifth |
| Supervisor.ConnectionSupervisor.Run | packages/telegram/connection_supervisor.py:194-268 | it stops, raises or blocks as its last cycle says, by exhaustion only when the count is reached and as soon as it is, with the scheduled waits |
| Watcher.EachMatchPassesOnce | apps/api/app/match_watcher.py:147-191 | each match is taken in at most once and let go at most once, exactly when no longer held |
| Watcher.MatchWatcher.PollAll | apps/api/app/match_watcher.py:147-201 | over any sequence of polls, each reading on from the one before, every match read enters exactly once, and has left exactly once when a poll comes a grace period later |
| Watcher.CapLoopNeverEnds | apps/api/app/match_watcher.py:167-169 | no pass of the loop over the cap takes anything out, so after any number of passes it goes on exactly when the cap was passed |
| Watcher.NoEventRepeats | apps/api/app/match_watcher.py:141-201 | consecutive events of one match carry different delivery signatures |
| Watcher.SignaturesShowTheFields | apps/api/app/match_watcher.py:69-84 | two signatures are one exactly when the deliveries agree on ids, statuses and times |
| Watcher.MatchWatcher.PollSync | apps/api/app/match_watcher.py:147-201 | a match without deliveries leaves at the first poll past its grace and no sooner; what stays tracked shows what the snapshot says; events are of showable matches, with their deliveries as the snapshot has them, and every match that leaves and can be shown has one |
| Watcher.MatchWatcher.Settle | apps/api/app/match_watcher.py:176-189 | exactly the matches still without delivery and within grace stay; each of the others gets an event if it can be shown |
| Watcher.MatchWatcher.RefreshPublished | apps/api/app/match_watcher.py:191-200 | whatever changed since it was shown is shown again, and nothing else is added |
| Watcher.MatchWatcher.constructor | apps/api/app/match_watcher.py:149-151 | the first poll only reads where the feed starts |
| Product.DropPartCodeRuns | packages/rules/product.py:145-165 | the index loops keep exactly the tokens outside runs of two or more code fragments, in order |
| Product.NoRunSurvives | packages/rules/product.py:145-165 | no two fragments stand side by side in the result |
| Product.DroppingTwiceIsDroppingOnce | packages/rules/product.py:145-165 | a second pass is the identity |
| Product.ProductKey | packages/rules/product.py:574-586 | none or at most 200 characters, of the longest prefix of the tokens that fits |
| Product.KeyIsALongestPrefix | packages/rules/product.py:574-586 | a key is not empty, splits back into that prefix, and names no other |
| Product.TrimCutsAModelSuffix | packages/rules/product.py:511-517 | a trailing model suffix that spells a connector is cut |

## Left out

- The term matcher, product line choice and cleaning, Unicode folding and the anchor-word patterns of the price reader: what they find in a text is a parameter. Digits and separators are the ASCII ones, white space is Unicode's.
- SQLite, locks, sessions, files and the Telegram and Bot API libraries: a transaction is atomic, a call's outcome is open.
- Metrics, counters other than the digest's, the event log, logging and the panel's pages.
- The order in which recipients are queried.
- Hash functions: signatures, fingerprints and group keys are compared as the tuples they are made of.
- Match ids are never reused; the program could reuse the highest one after deleting it.
- Cancellation in the middle of a catch-up batch, which only happens at shutdown.
- The moment between a boot's configuration load and its status write, in which a request could be settled without being loaded.
- The time zone that decides a local day, and the digest scheduler's clock check: a tick may come on any date.
- Which failed alerts a resend considers due: a pass may start with any of them.
- Limits of the runtime on converting very long digit strings.
- Login, settings, setup, backups, migrations and demo data, which would only add easy members.
- CatchUp.BootNeverAlertsRetroactively: a live update is taken to arrive when its message is posted, so an update of an older message delivered late is not covered.
- CatchUp.SwapIsRetroactiveIffSomethingIsLeftOver: likewise for late updates.
- CatchUp.ListenerLifecycle.ApplyConfig: the chats a swap allows the notifier to write to, and the historical scan it schedules, are not part of its state.
- Feed.ApplyDisplayGrouping: the grouped source ids a representative card lists are not in the result.
- Feed.AttachGroups: likewise.
- Feed.ApplyDuplicateGrouping: the source names a folded card lists are not in the result.
- Feed.AttachDuplicateGroups: likewise.
- Mailbox.ListenerControl.RecordApplied: the time and the counts written with the outcome are left out.
- Mailbox.ListenerControl.RecordFailed: the time and the error class written with the outcome are left out.
- Mailbox.ListenerControl.ReadSnapshot: the times, the counts and the online flag shown beside the state are left out.
- Watcher.EachMatchPassesOnce: for polls that succeed; one that raises half way is not modelled.
- Supervisor.ConnectionSupervisor.Run: the waits are exact reals, so floating-point rounding is not modelled.
- Sparkline.CutLeavesSomething: the median is compared as a whole number, which is exact where floating point is.
- Product.DropPartCodeRuns: which tokens look like code fragments is a parameter, so its word lists are not modelled.
- Broker.StreamIsGapless: an event an eviction dropped is still replayed to a client that reconnects before reading on.
- Listener.Process.ProcessMessage: nothing else runs in between; interleavings are the machine's, in Alerts.
- Digest.DigestRunner.RunDigestOnce: likewise, with matches arriving and going meanwhile covered by the machine.
