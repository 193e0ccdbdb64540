# Verification of the ghost AMM replay core

The project models the deterministic replay core of ghost-amm: `GhostAmmPipeline.process` and every stateful part it
drives (order book, fair-price engine, shock activator, queue fill model, risk kernel, order projector, inventory, the
live-order gates it reports on), the replay engine around it, and the tools that judge or transform the same logs
(recording inspection, the strict sequence check, the metrics ledger and quote churn, the time splitter).

How it is built:

- Every object whose methods update fields in the original is a class here (`OrderBook`, `FairPriceEngine`,
  `ShockActivator`, `ConservativeQueueFillModel`, `RiskKernel`, `OrderProjector`, `InventoryState`,
  `GhostAmmPipeline`, `ReplayEngine`), with the same fields, loops and early returns. Each method is proved to produce
  exactly the state and the output of a specification function (`ShockStep`, `Walk`, `Evaluate`, `Sync`, `Step`, ...). The laws are proved
  about those functions, so they hold of the methods.
- `Runs.Run` folds `Step` over an arbitrary event log from the initial state. All results about runs quantify over every
  configuration and every log. They are proved by an invariant (`Coupling.Coupled`) that ties the projector's copy of the
  open orders, the fill model's copy and a monitor of the emitted events (`Ledgers`) together.
- A step can raise in the original: a fill that overdraws the inventory, an average over no sources, or a book whose best
  prices cancel out. The model returns `raised`, and the run ends there; statements about "completed" runs are about logs
  on which no step raises. `Completion` says exactly when a step raises, and for which configurations and logs none does.
- A second run on one engine goes on from the first one's state; `Replays.SecondReplayContinues` makes it the rest of one
  run over both logs, so the results on runs hold for it too.

Reading guide, from the bottom up: `Types`, `Windows`, `OrderBook`, `Inspection`, `StrictSequence`, `Statistics`,
`FairPrice`, `Shock`, `OrderIds`, `FillModel`, `FillLaws`, `Projector`, `ProjectorLaws`, `Rounding`, `BitbankRules`,
`LiveGates`, `Inventory`, `QuoteSurface`, `Risk`, `RiskLaws`, `Pipeline`, `Ledger`, `Coupling`, `Runs`, `TraceLogs`,
`HistoryRuns`, `RunSafety`, `QueueRuns`, `GateLaws`, `EventOrder`, `Replay`, `SortedLogs`,
`Metrics`, `Churn`, `Completion`, `Split`, `Witnesses`.

Modelling choices: prices, amounts and timestamps are reals; `exp` is any positive, strictly
monotone function with `exp(0) = 1`;
an order id is the projector's counter (its text order is modelled in `OrderIds`); a shock id is the tuple of everything
that is hashed into it; an event's sequence is the parsed integer, if it parses; reasons are enumerations; configuration
values are constants of the run.

## What the proofs found

- Inspection can pass a recording on which the book goes stale: after a snapshot without a sequence it compares nothing
  until the next sequenced snapshot, while the book goes on comparing. `Inspection.BookFreshIff` gives the exact
  condition, `Inspection.UnsequencedSnapshotMissed` a log.
- The pipeline makes the projector forget an order on every fill, also a partial one. The remainder stays in the fill
  model and is never cancelled: neither expiry nor a risk block removes it (`Runs.RemainderNeverExpires`). Three events are
  enough to get there (`Witnesses.PartialFillOutlivesExpiry`).
- The last tie-break among resting orders compares ids as text, padded to six digits. It is placement order below one
  million orders and not beyond (`OrderIds.EarlierComesFirstIff`, `OrderIds.MillionComesBeforeItsPredecessor`).
- The 1e-9-step fudge in rounding down can lift a configured maximum order size by one lot, past the exchange limit it was
  meant to respect (`QuoteSurfaces.MaximumCheckIff`, `QuoteSurfaces.FudgeExceedsMaximum`).
- The summary counts fills that were already in the input log, which the inventory does not have
  (`Metrics.RecomputedBalances`, `Metrics.LedgerAgreesIff`, and `Witnesses.RecordedFillDisagrees` for a log of one event).
- A negative step disorders bids and asks alike, and negative distances cross the ladder; nothing in the code excludes
  them (`QuoteSurfaces.BidsMonotoneIff`, `QuoteSurfaces.AsksMonotoneIff`, `QuoteSurfaces.LadderUncrossedIff`).
- After a gap of more than five seconds between evaluations the kernel can allow a side that drift seen by the full
  history would block (`RiskLaws.DriftMissedAfterGap`; `Witnesses.DropGoesUnnoticed` halves the fair under a limit of one
  percent; `HistoryRuns.DecisionFromHistory` gives the exact condition).
- Sorting by time compares sequences as text, so a log that the strict check accepts can be refused once it is sorted: two
  deltas of one time with sequences 9 and 10 are (`SortedLogs.SortedReplayRefused`;
  `SortedLogs.PlainSortKeepsAcceptedIff` gives the exact condition).
- Quote churn closes an order at its first fill, also a partial one, while its remainder can still be filled
  (`Churns.RemainderCountsAsClosed`).
- With a negative temperature more force means less activation; nothing in the code excludes it
  (`Shocks.ActivationRisesIff`).

## Model

| member | source | states |
|---|---|---|
| Runs.BooksAgree | src/ghost_amm/pipeline.py:91-106 | After every completed run the projector holds at most one order per side and level; each is tracked by the fill model, unfilled, under the same id, side, price and creation time; and every other tracked order is exactly a placed order less its emitted fills, more than dust and less than its placed size |
| Runs.EveryOrderAccountedFor | src/ghost_amm/pipeline.py:169-183 | Nothing is lost: for every placed order of a completed run the emitted events alone decide membership of both copies. The projector has it iff it was neither cancelled nor filled; the fill model has it iff it was neither cancelled nor filled up to dust |
| Runs.RemainderNeverExpires | src/ghost_amm/pipeline.py:105 | The remainder of a partly filled order stays fillable for the rest of any run, whatever its expiry and whatever risk decides |
| Witnesses.PartialFillOutlivesExpiry | src/ghost_amm/pipeline.py:105 | A run of three events, for any exponential, in which an order is placed, partly filled when it has expired, gone from the projector and still tracked |
| Runs.OrderLifecycle | src/ghost_amm/amm/projector.py:62-91 | Over any run, also one that raises: an id is placed at most once and cancelled at most once, nothing happens to it before it is placed, a cancelled id never fills afterwards, a filled id is never cancelled afterwards |
| Runs.NeverOverfilled | src/ghost_amm/replay/fill_model.py:108-112 | Over any run the fills of an order are zero in total, or positive and at most its placed size |
| Runs.EveryOrderHasItsShock | src/ghost_amm/market/shock.py:99-137 | Over any run every placed order carries the id of a forced-flow event emitted before it and at least the minimum wait older; every fill comes at least that wait plus the minimum resting time after the forced flow whose id it carries |
| Runs.NothingRestsWhileWaiting | src/ghost_amm/market/shock.py:105-107 | A completed step before any shock, or inside the minimum wait after the last one, leaves no active order |
| Runs.RunAgrees | src/ghost_amm/pipeline.py:64-184 | The invariant behind the results on runs: the emitted events are orderly and caused, and after every completed run both copies of the open orders, the shock memory and the ledger of events agree |
| Runs.StepAgrees | src/ghost_amm/pipeline.py:64-184 | Every completed step keeps that agreement |
| Completion.StepRaisesIff | src/ghost_amm/pipeline.py:64-106 | A step raises iff the best prices of a usable book cancel out, or no fresh source is near their median though none is required, or some first fills of its trade together overdraw the inventory |
| Completion.RunRaisesIff | src/ghost_amm/market/fair_price.py:117-130 | With negative balances allowed and at least one source required, the log alone decides: a run raises iff the best prices of its book, usable by then, cancel out at some event |
| Completion.RunCompletes | src/ghost_amm/pipeline.py:64-184 | With those settings every log without a negative bid price runs to its end |
| Runs.QuotesAreDue | src/ghost_amm/amm/quote_surface.py:79-82 | Every generated quote carries the id of a known forced flow that is at least the minimum wait old |
| Runs.SettleEmitsFills | src/ghost_amm/pipeline.py:92-106 | When booking does not raise, exactly the model's fills are emitted, in order, and the projector forgets exactly the filled ids |
| Coupling.SyncFollows | src/ghost_amm/pipeline.py:169-183 | A whole sync, followed by the fill model event by event, keeps projector, fill model and ledger in agreement |
| Coupling.WalkKeeps | src/ghost_amm/pipeline.py:91-106 | All fills of a trade, each followed by `remove_filled`, keep projector, fill model and ledger in agreement |
| Coupling.FillKeeps | src/ghost_amm/replay/fill_model.py:108-143 | One fill does: the projector forgets the order, the fill model keeps the remainder above dust, and no other order is touched |
| Coupling.CancelKeeps | src/ghost_amm/replay/fill_model.py:64-65 | One cancellation does: the cancelled order was active and unfilled, and both copies lose exactly that order |
| Coupling.PlaceKeeps | src/ghost_amm/replay/fill_model.py:44-62 | One placement does: the id is new, and both copies gain exactly that order |
| Coupling.PlacedAccounted | src/ghost_amm/replay/fill_model.py:141-143 | Under the invariant an order is missing from a copy only for the reason that removes it from that copy |
| RunSafety.RunRestsSafely | src/ghost_amm/amm/projector.py:56-118 | After every completed run each active order, new or kept, is on a side the last decision allows, strictly on its own side of the best opposite price, unexpired (or placed by this very event with a time to live that is not positive), and stands for a current quote of its own side and level: made for it now, or an earlier order that the replace rule keeps for it; one per side and level, at most `max_active_orders`, none if risk blocked quoting |
| RunSafety.StepRestsSafely | src/ghost_amm/pipeline.py:108-184 | The same for every completed step from any state that satisfies the invariant, for every time to live |
| RunSafety.LadderIsCurrent | src/ghost_amm/amm/projector.py:145-154 | On every completed run in time order without replace tolerance, every active order has exactly the price and size of the current quote of its side and level |
| RunSafety.RestingLadderUncrossed | src/ghost_amm/amm/quote_surface.py:89-98 | Then, on any tick, a resting buy is above a resting sell only if the distances of their levels from the fair sum to less than zero: never with a half-spread and step that are not negative |
| RunSafety.RunAllowedHasRoom | src/ghost_amm/risk/kernel.py:183-206 | After every completed run an allowed side has room for one more order of maximal size at the current fair: balances cover it, and base quantity, quote usage and inventory notional stay within their limits |
| RunSafety.RunBook | src/ghost_amm/pipeline.py:67-68 | The book of a completed run is the book that replays the same log |
| RunSafety.InspectionDecidesRun | src/ghost_amm/recorder/inspection.py:102-112 | When every snapshot is sequenced, inspection reports no violation iff the pipeline's book was fresh after every prefix of the log that contains a snapshot |
| RunSafety.RunKeepsOpen | src/ghost_amm/amm/quote_surface.py:102-106 | With positive minimum sizes no tracked order of a run ever has nothing left to fill |
| QueueRuns.RunPriority | src/ghost_amm/replay/fill_model.py:67-112 | In every run, when the trade of a completed step gives any flow to an order, queue or fill, the emitted fills take all that is left of every eligible order ranked before it |
| QueueRuns.QueueConsumedFirst | src/ghost_amm/replay/fill_model.py:44-62 | Over any completed run, an order with any fill had its queue absorb, first, at least the multiplier times the depth visible at its price when it was placed and at least the multiplier times its own size; while tracked, its queue is the initial one less exactly what trades gave it |
| QueueRuns.SyncPlacesNew | src/ghost_amm/amm/projector.py:74-75 | Every sync gives the orders it places distinct ids above all earlier ones |
| GateLaws.RunBlocksWell | src/ghost_amm/pipeline.py:195-235 | Over any run no placed order is reported blocked by the risk gate, for crossing the book, for its precision or for being below the minimum; only configuration, the pair's own flags, the maximum amount or the final override can block it |
| GateLaws.QuotedOrderPasses | src/ghost_amm/execution/live_gates.py:67-81 | The same for one order: made for a generated quote that is post-only safe under a decision that allows quoting, it passes those gates |
| GateLaws.SyncPlacesDesired | src/ghost_amm/amm/projector.py:56-92 | A sync places orders only when risk did not block it, and each for a desired quote with its side, price and size |
| LiveGates.ConfigGate | src/ghost_amm/execution/live_gates.py:33-56 | When no configuration gate fires there is a pair spec and the exchange is normal |
| HistoryRuns.ForcedFlowsSpaced | src/ghost_amm/market/shock.py:78-97 | With no assumption on timestamps, consecutive forced-flow events of any run are strictly more than one window apart |
| HistoryRuns.TakerSumsExact | src/ghost_amm/market/shock.py:65-74 | On runs in time order the published taker sums equal the sums over all trades of the log at most one window old: the pruned deque loses nothing |
| HistoryRuns.BurstsDisallow | src/ghost_amm/risk/kernel.py:37-53 | On runs in time order, if a fill made at least the configured number of same-side fills within its window of the full history, every decision less than one cooldown later disallows that side |
| HistoryRuns.FairHistoryRefines | src/ghost_amm/risk/kernel.py:129-158 | On runs in time order the kernel's pruned fair history answers like the history of all recorded fairs, and has no answer exactly when every sample at or before the target is more than 5000 ms older than the last one |
| HistoryRuns.OneSideLimitHolds | src/ghost_amm/risk/kernel.py:207-217 | On runs in time order, a side whose fills of the last minute, over all fills of the run, exceed the one-side limit with one maximal order more is disallowed by the last decision, whether or not its evaluation got that far |
| HistoryRuns.DecisionFromHistory | src/ghost_amm/risk/kernel.py:101-123 | On runs in time order whose last evaluation got through its checks: unless a cooldown comes first, the decision names drift for a side iff the full history of recorded fairs shows it, not counting samples more than 5000 ms older than the last earlier one, and names the one-side limit iff neither comes first and all fills of the last minute exceed it; with that limit on, the notional history it keeps is exactly those fills |
| HistoryRuns.RunRemembers | src/ghost_amm/risk/kernel.py:125-127 | All four rolling memories track their full histories at the end of every completed run in time order |
| HistoryRuns.StepLogs | src/ghost_amm/pipeline.py:86-106 | The fills and forced flows in a completed step's output are exactly those the fill model and the shock activator produced, in order |
| HistoryRuns.RunFillsWithinVolume | src/ghost_amm/replay/fill_model.py:67-79 | Over any run the fills together never exceed the traded volume of the log |
| FillLaws.TradeFlowConserved | src/ghost_amm/replay/fill_model.py:67-79 | For every trade and every set of orders: amount = queue reduction + fills + unused flow, all non-negative, so fills never exceed the amount |
| FillLaws.PriceTimePriority | src/ghost_amm/replay/fill_model.py:81-92 | If a trade gives any flow, queue or fill, to an order, every eligible order ranked before it is filled with all it has left and removed; one that had nothing left gets no fill and stays |
| FillLaws.WalkCuts | src/ghost_amm/replay/fill_model.py:74-78 | For any tracked orders, a trade closes a prefix of the ranking in that sense, leaves at most one touched order open, and does not touch the rest |
| FillLaws.LifetimeConserved | src/ghost_amm/replay/fill_model.py:94-112 | From any point of any sequence of orders, cancels, trades and fee changes: what an order that is neither cancelled nor placed anew loses in remaining size is exactly its fills, what its queue loses is exactly the flow the queue absorbed, it fills only after its queue is used up, and disappears only by filling up to dust |
| FillLaws.PlacedOrderConserved | src/ghost_amm/replay/fill_model.py:44-62 | From placement: placed size = fills + remaining size, and a fill means its queue first absorbed at least the multiplier times the visible depth and at least the multiplier times its own size |
| FillLaws.WalkAbsorbs | src/ghost_amm/replay/fill_model.py:101-112 | What one trade does to each tracked order, whether or not it is reached |
| FillModels.RankingUnique | src/ghost_amm/replay/fill_model.py:90-92 | The sort key determines one order of the eligible orders; the dictionary's iteration order cannot matter |
| FillModels.Ranking | src/ghost_amm/replay/fill_model.py:90-92 | It lists exactly the eligible orders, each before those with a worse price, or the same price and a later creation, or both equal and a later id text |
| FillModels.ConservativeQueueFillModel.constructor | src/ghost_amm/replay/fill_model.py:26-31 | A new model tracks nothing and has counted no fill |
| FillModels.ConservativeQueueFillModel.SetMakerFeeBps | src/ghost_amm/replay/fill_model.py:41-42 | Only the fee changes |
| FillModels.ConservativeQueueFillModel.OnVirtualOrder | src/ghost_amm/replay/fill_model.py:44-62 | The order is tracked whole behind the larger of the two multiplied queues; no other order changes |
| FillModels.ConservativeQueueFillModel.OnCancel | src/ghost_amm/replay/fill_model.py:64-65 | Exactly that order is dropped, and an unknown id is ignored |
| FillModels.ConservativeQueueFillModel.EligibleOrders | src/ghost_amm/replay/fill_model.py:81-92 | The loop over the dictionary returns the unique ranking of the eligible orders |
| FillModels.ConservativeQueueFillModel.ConsumeOrder | src/ghost_amm/replay/fill_model.py:94-143 | Queue first, then the order, in place: the order table, the fill, the counter and the flow left are those of the specification `Consume` and `Settle`, whose laws are the conservation lemmas |
| FillModels.ConservativeQueueFillModel.SpendVolume | src/ghost_amm/replay/fill_model.py:73-79 | The loop with its early exit spends the amount as the recursive walk over the ranking does |
| FillModels.ConservativeQueueFillModel.OnMarketEvent | src/ghost_amm/replay/fill_model.py:67-79 | State and fills after any event; nothing but a trade changes anything |
| OrderIds.EarlierComesFirstIff | src/ghost_amm/amm/projector.py:74-75 | For all counters: the earlier id comes first in text order iff its counter is at most the leading digits, of its own width, of the later one; so always when both are equally wide |
| OrderIds.PlacementOrder | src/ghost_amm/amm/projector.py:75 | Ids of equal width compare like their counters |
| OrderIds.BelowMillionInPlacementOrder | src/ghost_amm/amm/projector.py:75 | Below one million the zero padding makes text order placement order |
| OrderIds.MillionComesBeforeItsPredecessor | src/ghost_amm/amm/projector.py:75 | A concrete pair for which it does not |
| OrderIds.IdTotal | src/ghost_amm/replay/fill_model.py:91-92 | Two different ids are always ordered, so the sort key has no ties |
| ProjectorLaws.SyncOutcome | src/ghost_amm/amm/projector.py:58-118 | After a sync that risk did not block: exactly one order for each desired side and level and none else, at most `max_active_orders`, all post-only safe on allowed sides and unexpired, each standing for a desired quote of its own side and level: made for it now with its price, size and shock, or an earlier order that `_should_keep_existing` keeps for it |
| ProjectorLaws.KeptIsCurrent | src/ghost_amm/amm/projector.py:145-154 | Without tolerance, an order that is kept for a quote has its price and size |
| ProjectorLaws.SyncEmpties | src/ghost_amm/amm/projector.py:56-57 | After a sync that risk blocked, or one without quotes, nothing rests |
| ProjectorLaws.EventsExplainSync | src/ghost_amm/amm/projector.py:61-129 | For every sync, replaying the emitted placements and cancellations over the old orders gives exactly the new orders |
| Projectors.OrderProjector.constructor | src/ghost_amm/amm/projector.py:29-44 | A new projector has no order and counter zero |
| Projectors.OrderProjector.SyncQuotes | src/ghost_amm/amm/projector.py:46-118 | Active orders, counter and events of a sync, blocked or not, are those of `Sync`, about which the laws above are proved |
| Projectors.OrderProjector.CancelUnwanted | src/ghost_amm/amm/projector.py:62-65 | The deleting loop keeps exactly the desired, unexpired, safe orders in place and cancels the others in order |
| Projectors.OrderProjector.PlaceDesired | src/ghost_amm/amm/projector.py:66-117 | The inserting loop over the desired quotes |
| Projectors.OrderProjector.PlaceOne | src/ghost_amm/amm/projector.py:67-92 | Keep, replace or place: a replacement counts twice, once for the cancellation |
| Projectors.OrderProjector.CancelEverything | src/ghost_amm/amm/projector.py:126-129 | One cancellation per active order, in order, and no order is left |
| Projectors.OrderProjector.Forget | src/ghost_amm/amm/projector.py:120-124 | The first active order with the id goes, silently; all others stay in order |
| Projectors.SliceTo | src/ghost_amm/amm/projector.py:59 | A prefix of the quotes, no longer than a non-negative bound |
| Inspection.BookFreshIff | src/ghost_amm/market/orderbook.py:32-54 | For every log: the replayed book never goes stale after its first snapshot iff inspection counts no violation and, behind each snapshot without a sequence, the sequenced deltas strictly increase |
| Inspection.InspectionDecidesStaleness | src/ghost_amm/recorder/inspection.py:102-112 | When every snapshot is sequenced, zero violations iff the book never goes stale after its first snapshot |
| Inspection.UnsequencedSnapshotMissed | src/ghost_amm/recorder/inspection.py:104-111 | Without that hypothesis there is a log with zero violations on which the book goes stale |
| Inspection.CountSequenceViolations | src/ghost_amm/recorder/inspection.py:66-112 | The counting loop, against the fold that the two results above are about |
| StrictSequence.AssertMonotonicSequences | src/ghost_amm/replay/engine.py:124-134 | Accepts iff parsed sequences never decrease within any (venue, symbol, stream); otherwise stops at the first event that breaks this |
| StrictSequence.AcceptedLogGoesStaleOnlyOnRepeat | src/ghost_amm/market/orderbook.py:40-54 | On an accepted log of one market a fresh book goes stale exactly on a delta whose sequence equals the book's last one |
| OrderBooks.OrderBook.constructor | src/ghost_amm/market/orderbook.py:17-24 | A new book is empty and stale for want of a snapshot |
| OrderBooks.OrderBook.Snapshot | src/ghost_amm/market/orderbook.py:32-38 | A snapshot replaces the whole book and makes it fresh |
| OrderBooks.OrderBook.Delta | src/ghost_amm/market/orderbook.py:40-60 | A delta is ignored by a stale book, makes the book stale without touching a level when its sequence does not increase, and otherwise sets or removes its levels in order |
| OrderBooks.OrderBook.Apply | src/ghost_amm/market/orderbook.py:26-30 | Every other event leaves the book unchanged |
| OrderBooks.MaxOf | src/ghost_amm/market/orderbook.py:62-63 | The best bid is a bid, and no bid is above it |
| OrderBooks.MinOf | src/ghost_amm/market/orderbook.py:65-66 | The best ask is an ask, and no ask is below it |
| FairPrice.PublishedFairNearReference | src/ghost_amm/market/fair_price.py:90-115 | Any valid published fair, median or mean, deviates from the median of the fresh sources by at most the configured bound |
| FairPrice.MajorityBoundsReference | src/ghost_amm/market/fair_price.py:91-94 | If a strict majority of the fresh prices lies in an interval, so does the reference median |
| FairPrice.MajorityBoundsFair | src/ghost_amm/market/fair_price.py:90-115 | Then a valid fair is at most the configured share of the upper end above it and, for a deviation up to 100%, at most that share of the lower end below it; a minority of sources cannot move it out of that range |
| FairPrice.SourceOrderIrrelevant | src/ghost_amm/market/fair_price.py:90-115 | Permuting the sources changes nothing in the published state but the order of the listed names, including whether it raises |
| FairPrice.FairPriceEngine.constructor | src/ghost_amm/market/fair_price.py:31-47 | A new engine knows no source |
| FairPrice.FairPriceEngine.Update | src/ghost_amm/market/fair_price.py:60-74 | Ticker, external and book sources replace their own earlier entry, an unusable book removes its entry, and the state is aggregated from all of them; None where a mid of zero or an empty average raises |
| Statistics.MedianOfMajority | src/ghost_amm/market/fair_price.py:94 | The median lies in every interval that contains a strict majority of the values |
| Statistics.OrderIndependent | src/ghost_amm/market/fair_price.py:94-106 | Median and mean depend only on the multiset of the values |
| Statistics.SortPermutes | src/ghost_amm/market/fair_price.py:94 | Sorting for the median keeps every value with its multiplicity |
| Statistics.AveragesBetween | src/ghost_amm/market/fair_price.py:106 | Median and mean lie between any bounds of the values |
| Shocks.ActiveOnlyAfterWait | src/ghost_amm/market/shock.py:99-122 | A positive bid or ask activation needs a valid fair and a known shock at least the minimum wait old, whose id is published |
| Shocks.ActivationShares | src/ghost_amm/market/shock.py:152-158 | Side activations lie between zero and the activation, which is at most one; the side the shock pushed into gets all of it |
| Shocks.ActivationFades | src/ghost_amm/market/shock.py:109-111 | An older shock never activates more, for every force and configuration |
| Shocks.ActivationRisesIff | src/ghost_amm/market/shock.py:109-111 | At every age of a shock: more force never activates less iff the temperature is not negative |
| Shocks.ShockActivator.constructor | src/ghost_amm/market/shock.py:28-51 | A new activator remembers no trade and no shock |
| Shocks.ShockActivator.Update | src/ghost_amm/market/shock.py:65-137 | Memory, published state and forced flow of an update, on the window as pruned in place |
| Shocks.ShockActivator.Append | src/ghost_amm/market/shock.py:67-69 | Only trades enter the window |
| Shocks.ShockActivator.NoteShock | src/ghost_amm/market/shock.py:78-97 | A shock is remembered and reported iff the force reaches the threshold more than one window after the last one |
| Shocks.ShockRemembered | src/ghost_amm/market/shock.py:78-97 | The memory points at the shock of this update, if there is one, and else where it did; a second shock comes more than one window after the first |
| Shocks.ShockActivator.Describe | src/ghost_amm/market/shock.py:99-137 | The published state from the memory: age, waiting, activation, direction and reason, overridden by an invalid fair |
| Shocks.ShockActivator.Expire | src/ghost_amm/market/shock.py:139-141 | The popping loop |
| Shocks.Activation | src/ghost_amm/market/shock.py:109-111 | Sigmoid times decay is a share between zero and one, for any positive monotone `exp` |
| Windows.ExpireIsRecent | src/ghost_amm/market/shock.py:139-141 | For any history in time order, a deque pruned from the left at several times holds, when pruned at the last of them, exactly the entries of the full history at most one window old |
| Risks.RiskKernel.constructor | src/ghost_amm/risk/kernel.py:26-35 | A new kernel has no history |
| Risks.RiskKernel.Fill | src/ghost_amm/risk/kernel.py:37-53 | Every fill enters the notional history; the burst history and the cooldown change only when the limit is on |
| Risks.RiskKernel.NoteBurst | src/ghost_amm/risk/kernel.py:49-53 | Append, prune, and start a cooldown when the side's count reaches the limit |
| Risks.RiskKernel.StartCooldown | src/ghost_amm/risk/kernel.py:51-53 | A later burst overwrites the side's cooldown; the other side keeps its own |
| Risks.RiskKernel.Trade | src/ghost_amm/risk/kernel.py:55-57 | Only a positive price replaces the last trade |
| Risks.RiskKernel.ExpireFills | src/ghost_amm/risk/kernel.py:125-127 | The popping loop of the fill history |
| Risks.RiskKernel.RecordFair | src/ghost_amm/risk/kernel.py:129-132 | Append and prune at 5000 ms |
| Risks.RiskKernel.ExpireChanges | src/ghost_amm/risk/kernel.py:219-221 | The popping loop of the notional history, at 60000 ms |
| Risks.RiskKernel.PriorFair | src/ghost_amm/risk/kernel.py:151-158 | The scan with its break finds the last sample before the first one later than the target |
| Risks.RiskKernel.DriftingSides | src/ghost_amm/risk/kernel.py:134-149 | Sides blocked by a drop or rise over one or five seconds |
| Risks.RiskKernel.CoolingSides | src/ghost_amm/risk/kernel.py:171-181 | A side's cooldown is kept, and blocks, iff it has not run out; the others are removed |
| Risks.RiskKernel.InventoryBlocks | src/ghost_amm/risk/kernel.py:183-217 | Per-side balance, position and one-side limits; the notional history is pruned only when its limit is on |
| Risks.RiskKernel.PositionBlocks | src/ghost_amm/risk/kernel.py:192-205 | Base, quote-usage and inventory-notional limits, each overwriting the reason of the earlier ones |
| Risks.RiskKernel.BalanceBlocks | src/ghost_amm/risk/kernel.py:184-190 | Balances that do not cover a maximal order, unless negative ones are allowed |
| Risks.RiskKernel.OneSideBlocks | src/ghost_amm/risk/kernel.py:210-217 | The one-side limit overwrites every earlier reason |
| Risks.RiskKernel.Assess | src/ghost_amm/risk/kernel.py:59-123 | The whole evaluation with every early return: decision, new memory, and whether the fair was recorded |
| Risks.Gate | src/ghost_amm/risk/kernel.py:71-97 | When no check blocks all quoting, the fair is valid and positive |
| RiskLaws.FillRemembered | src/ghost_amm/risk/kernel.py:37-53 | Recording a fill keeps the burst memory exact: pruned history = full-history window, and each unexpired burst has a cooldown that outlasts it |
| RiskLaws.EvaluationRemembers | src/ghost_amm/risk/kernel.py:105-119 | An evaluation keeps that memory and disallows every side with a burst less than a cooldown ago |
| RiskLaws.OneMinuteNotionalExact | src/ghost_amm/risk/kernel.py:207-221 | An evaluation that gets through leaves exactly the fills of the last minute in its history, and names the one-side limit for a side iff neither a cooldown nor drift comes first and the notional of all fills of that minute exceeds it; exceeding it disallows the side in every evaluation |
| RiskLaws.AllowedIff | src/ghost_amm/risk/kernel.py:101-123 | A side is allowed iff the evaluation got through, the pair does not stop the side, and no live cooldown, drift or limit blocks it |
| RiskLaws.AllowedHasRoom | src/ghost_amm/risk/kernel.py:183-206 | An allowed side has room for one more order of maximal size at the fair of the evaluation, in balances, position, usage and notional |
| RiskLaws.LimitsIff | src/ghost_amm/risk/kernel.py:183-217 | Exactly which limits block a side |
| RiskLaws.ReasonIff | src/ghost_amm/risk/kernel.py:110-121 | Which reason a decision names: cooldown before drift before limits |
| RiskLaws.PrunedFairRefines | src/ghost_amm/risk/kernel.py:151-158 | A pruned answer is the full-history answer, and there is none iff every sample at or before the target is more than 5000 ms older than the last |
| RiskLaws.DriftFromFullHistory | src/ghost_amm/risk/kernel.py:134-149 | The drift check on the pruned history is the one on the full history without samples more than 5000 ms older than the last |
| RiskLaws.DriftMissedAfterGap | src/ghost_amm/risk/kernel.py:103-158 | Three evaluations, the second more than five seconds after the first and less than one before the third: a drop from the first fair that is drift by the full history blocks nothing, and the third decision allows buying unless a stop flag, cooldown or limit forbids it |
| Witnesses.DropGoesUnnoticed | src/ghost_amm/risk/kernel.py:125-158 | With a drop limit of one percent a second the fair halves, buying has to stop by the full history, and the kernel allows it |
| RiskLaws.RecordedFairTracked | src/ghost_amm/risk/kernel.py:103-104 | Recording a fair keeps the pruned history a suffix of the full one, without anything younger lost |
| QuoteSurfaces.LadderOrdered | src/ghost_amm/amm/quote_surface.py:89-98 | In every generated ladder, whatever the tick, spread and step: the level farther from the fair has the lower bid and the higher ask, and a bid is not above an ask when their distances do not sum to less than zero |
| QuoteSurfaces.BidsMonotoneIff | src/ghost_amm/amm/quote_surface.py:89-92 | On any tick, the bid of a later level is never above that of an earlier one, for every fair, skew and activation, iff the configured step is not negative |
| QuoteSurfaces.AsksMonotoneIff | src/ghost_amm/amm/quote_surface.py:89-92 | The ask of a later level is never below that of an earlier one iff the step is not negative |
| QuoteSurfaces.LadderUncrossedIff | src/ghost_amm/amm/quote_surface.py:89-92 | On any tick, the bid of one level is never above the ask of another, for every fair, skew and activation, iff their distances do not sum to less than zero; a half-spread and step that are not negative give that |
| QuoteSurfaces.GeneratedQuotesValidate | src/ghost_amm/exchange/bitbank_rules.py:66-85 | A quote generated for a pair spec passes the precision and minimum checks of `validate_order`; it can fail only for the pair's own flags or the maximum amount |
| QuoteSurfaces.MaximumCheckIff | src/ghost_amm/amm/quote_surface.py:102-106 | The maximum check passes for every raw size iff the rounded-down configured maximum meets the limit or lies below the minimum size |
| QuoteSurfaces.FudgeExceedsMaximum | src/ghost_amm/amm/quote_surface.py:113 | A configured maximum just below one lot is quoted as one lot |
| QuoteSurfaces.LotMultipleMaximumAccepted | src/ghost_amm/exchange/bitbank_rules.py:79-80 | A configured maximum that is a lot multiple within the exchange limit makes every generated quote pass all checks but the pair's own flags |
| QuoteSurfaces.GeneratedQuoted | src/ghost_amm/amm/quote_surface.py:79-98 | Exactly these quotes are generated: with a positive fair and some positive activation, on every configured level and for each side whose size is large enough, that level's price and the side's size and activation, with the input's skew, fair and shock |
| QuoteSurfaces.GeneratedInOrder | src/ghost_amm/amm/quote_surface.py:89-98 | Levels in order, bid before ask, no side and level twice |
| QuoteSurfaces.Generate | src/ghost_amm/amm/quote_surface.py:67-99 | The appending level loop, also for a non-positive number of levels |
| Rounding.RoundMultiple | src/ghost_amm/exchange/bitbank_rules.py:106-108 | The final decimal rounding leaves every multiple of a power-of-ten step unchanged, fine or coarse |
| Rounding.FloorOfMultiple | src/ghost_amm/exchange/bitbank_rules.py:103-108 | Multiples of the step are fixed points of rounding down, despite the fudge |
| Rounding.RoundingMonotone | src/ghost_amm/amm/quote_surface.py:109-120 | Rounding down and up are monotone, for every step |
| Rounding.FloorBelowCeil | src/ghost_amm/amm/quote_surface.py:109-120 | Rounding down a value never passes rounding up a higher or equal one, for every step and despite the fudge |
| Rounding.RoundedNear | src/ghost_amm/amm/quote_surface.py:109-120 | No rounding moves a value by more than a step and one |
| Rounding.DecimalsOfPower | src/ghost_amm/exchange/bitbank_rules.py:107 | The number of decimals computed for a step of ten to the minus n is n |
| Inventories.InventoryState.constructor | src/ghost_amm/amm/inventory.py:7-11 | The initial balances |
| Inventories.InventoryState.Apply | src/ghost_amm/amm/inventory.py:44-54 | Balances after a fill, which are changed also when the fill raises; it raises iff they are overdrawn and that is not allowed |
| Inventories.Skew | src/ghost_amm/amm/inventory.py:13-42 | A skew exists only for a positive fair |
| Pipelines.GhostAmmPipeline.constructor | src/ghost_amm/pipeline.py:30-62 | The initial state, in fresh parts of its own |
| Pipelines.GhostAmmPipeline.Process | src/ghost_amm/pipeline.py:64-184 | State of all parts and output after any event, with the book fields of the risk event and the gate reason of every blocked order, are those of `Step`, about which all results on runs are proved; None iff it raises |
| Pipelines.GhostAmmPipeline.Ingest | src/ghost_amm/pipeline.py:186-193 | Pair spec, maker fee and status; an incomplete status is ignored |
| Pipelines.GhostAmmPipeline.ReadMarketData | src/ghost_amm/pipeline.py:67-70 | Depth events change only the book, trades only the last trade of the risk kernel |
| Pipelines.GhostAmmPipeline.Trade | src/ghost_amm/pipeline.py:72-106 | Shock detection before fills, fills before risk; not ok iff booking a fill raises |
| Pipelines.GhostAmmPipeline.DetectShock | src/ghost_amm/pipeline.py:86-89 | The shock activator sees the book and fair of this event, and its state is remembered |
| Pipelines.GhostAmmPipeline.FillAndSettle | src/ghost_amm/pipeline.py:91-106 | Fills are made before any is booked |
| Pipelines.GhostAmmPipeline.SettleAll | src/ghost_amm/pipeline.py:92-106 | The booking loop stops at the first fill that overdraws, with that fill already in the balances and the rest unbooked |
| Pipelines.GhostAmmPipeline.SettleOne | src/ghost_amm/pipeline.py:93-106 | Inventory first, then risk and projector, which do not change when the inventory raises |
| Pipelines.GhostAmmPipeline.QuoteAndOrder | src/ghost_amm/pipeline.py:108-184 | Risk is evaluated after the fills, quotes use the inventory after the fills, and the fill model follows the projector's events |
| Pipelines.GhostAmmPipeline.MakeQuotes | src/ghost_amm/pipeline.py:154-167 | Quotes only for a valid fair, from the pair spec and skew of the moment; a missing skew counts as zero |
| Pipelines.GhostAmmPipeline.Follow | src/ghost_amm/pipeline.py:178-183 | The fill model handles the order events in order; each placement yields one intent and one blocked event with its gate reason |
| Pipelines.GhostAmmPipeline.FollowEvent | src/ghost_amm/pipeline.py:178-183 | One order event |
| Replays.ReplayEngine.constructor | src/ghost_amm/replay/engine.py:13-17 | A new engine has a pipeline in its initial state and the configured order and check |
| Replays.ReplayEngine.Run | src/ghost_amm/replay/engine.py:19-34 | From whatever state the last run left: raises iff the order is refused, the strict check rejects the ordered log or some step raises, and leaves the pipeline where that happened; otherwise returns every input event in the chosen order, followed by what its step emitted, enriched. The order and check in use are remembered once the order is not refused |
| Replays.ReplayEngine.ProcessAll | src/ghost_amm/replay/engine.py:30-33 | The event loop, up to the first step that raises |
| Replays.RunContinues | src/ghost_amm/replay/engine.py:31-33 | A run that starts where a completed one ended is the rest of one run over both logs, in state, emitted events and output |
| Replays.SecondReplayContinues | src/ghost_amm/replay/engine.py:19-34 | So a second replay on an engine ends where one run over both ordered logs ends, and completes iff that run does |
| SortedLogs.SortedAcceptedIff | src/ghost_amm/replay/engine.py:79-84 | The strict check accepts the sorted log, of any log, iff within each stream the sort keys follow the sequences |
| SortedLogs.SortKeepsAcceptedIff | src/ghost_amm/replay/engine.py:124-134 | Sorting an accepted log in time order keeps it accepted iff within each stream, of two events at the same time, the text of the smaller sequence comes first |
| SortedLogs.PlainSortKeepsAcceptedIff | src/ghost_amm/replay/engine.py:84 | With sequences written as plain integers: iff the smaller is at most the leading digits of the larger, of its own width, and the other way round below zero |
| SortedLogs.SortedReplayRefused | src/ghost_amm/replay/engine.py:74-86 | For every configuration and state: two deltas of one stream and time with sequences 9 and 10 are accepted as they arrived and refused when sorted, before any is processed |
| EventOrder.OrderedEvents | src/ghost_amm/replay/engine.py:74-86 | Whatever order is chosen the same events are replayed, and events with equal time and sequence text keep their order; sorted ones are in time order, then in the order of their sequence text, so the results for runs in time order apply to them |
| EventOrder.SortStable | src/ghost_amm/replay/engine.py:84 | The sort is stable |
| Replays.FindFairAtOrAfter | src/ghost_amm/replay/engine.py:117-121 | The scan of the fair points, with its fallback |
| Replays.FairAtOrAfterMeaning | src/ghost_amm/replay/engine.py:117-121 | It finds the first point, in output order, at or after the target, or the last point of all when there is none |
| Replays.EnrichFairAfter | src/ghost_amm/replay/engine.py:89-114 | Every event keeps its place; only the three later fairs of fills change |
| Replays.EnrichIdempotent | src/ghost_amm/replay/engine.py:89-114 | Enriching an enriched output changes nothing |
| Metrics.SummaryIdentities | src/ghost_amm/analytics/metrics.py:125-133 | For every output: total = no-trade baseline + alpha, realized = -fees, unrealized = total - realized, and alpha is the sum over the fills of signed size times (end fair - price), less fees |
| Metrics.RecomputedBalances | src/ghost_amm/analytics/metrics.py:62-107 | For every completed run, base and cash recomputed from the output are the pipeline's inventory plus exactly the net of the fills the input log itself contained |
| Metrics.LedgerAgreesIff | src/ghost_amm/analytics/metrics.py:60-107 | So they are the pipeline's inventory iff those fills net to nothing in both |
| Witnesses.RecordedFillDisagrees | src/ghost_amm/analytics/metrics.py:60-107 | For every configuration, a log of just one recorded buy fill completes and makes the recomputed balances differ from the inventory |
| Metrics.LedgerAgrees | src/ghost_amm/analytics/metrics.py:128 | On logs without fills of their own the summary's end equity is the inventory's value at the end fair |
| Metrics.InventoryIsNet | src/ghost_amm/amm/inventory.py:44-54 | The inventory of a completed run is the initial one plus the net of the emitted fills |
| Metrics.DrawdownIsLargestFall | src/ghost_amm/analytics/metrics.py:197-205 | The drawdown is the largest fall from any account value to any later one, and zero when values never fall |
| Metrics.Summarize | src/ghost_amm/analytics/metrics.py:56-183 | The ledger part of the summary, from the fills of the output |
| Metrics.BookFills | src/ghost_amm/analytics/metrics.py:78-123 | The accumulating loop: base, cash, fees, realized loss and account value after every fill |
| Metrics.BookFill | src/ghost_amm/analytics/metrics.py:100-107 | One fill changes base by its signed size and cash by its cost or proceeds and fee |
| Metrics.ComputeDrawdown | src/ghost_amm/analytics/metrics.py:197-205 | The peak loop, against the definition that `DrawdownIsLargestFall` explains |
| Churns.QuoteChurn | src/ghost_amm/analytics/metrics.py:211-247 | The counting loop and its rates, against the fold that the results below are about |
| Churns.ClosingTime | src/ghost_amm/analytics/metrics.py:234-241 | For every output: an order has a closing time iff it is ever cancelled or filled, and it is the time of the first such event |
| Churns.UnclosedIffActive | src/ghost_amm/analytics/metrics.py:234-242 | After every completed run, a placed order has no closing time iff the projector still has it active and no cancel or fill in the input log names its id |
| Churns.OrdersBalance | src/ghost_amm/analytics/metrics.py:229-241 | On logs without orders of their own, the orders counted are exactly those still active plus those with a closing time |
| Churns.RemainderCountsAsClosed | src/ghost_amm/analytics/metrics.py:238-241 | The remainder of a partly filled order has a closing time and is still tracked by the fill model |
| Splits.SplitPartitions | src/ghost_amm/recorder/split.py:70-98 | Whenever a split succeeds, every data event is selected for exactly one part, each part is the data of its span, there are as many parts as asked for, and their sizes sum to the number of data events |
| Splits.SelectKeepsOrder | src/ghost_amm/recorder/split.py:76-80 | A part holds the data at strictly increasing positions, exactly those whose timestamp is in its span |
| Splits.HitsOnce | src/ghost_amm/recorder/split.py:110-113 | Every timestamp between the first and the last is in exactly one span, the last one included |
| Splits.MetadataLeadsEveryPart | src/ghost_amm/recorder/split.py:116-128 | Every part starts with a copy of each metadata event, unchanged but for id and time, at strictly increasing times before every data event of the part |
| Splits.SplitRecording | src/ghost_amm/recorder/split.py:40-107 | The whole split with every error case, in the order in which they are checked |
| Splits.MakeParts | src/ghost_amm/recorder/split.py:73-98 | The loop over the spans stops at the first empty one and names it |

## Left out

- Command line, reports, CSV and JSON writing, sweeps, the recorder, the public dry run, REST and CCXT clients: I/O around the core.
- The private and paper executors, and a change of environment variables during a run: the gates' configuration and environment are constants of the run.
- Quality gate and risk diagnostics: threshold comparisons and reporting.
- IEEE float rounding: values are reals, so the last boundary of a split and sums of fills are exact here and only nearly so in floats.
- The values of `exp`: only positivity, strict monotonicity and `exp(0) = 1` are used.
- Event ids other than shock ids and metadata copies, hashing, JSON and YAML parsing, configuration defaults, and payloads that fail to parse.
- The design note (`ghost_amm_goal_bitbank_ccxt.md:916`) asks for sorted events; the code sorts only on request, and the model follows the code.
- Dictionaries of tracked orders and fair sources are a map and an insertion-ordered sequence; a tracked order is a value in its table, so the aliasing of one order object by the table and the sorted list is not modelled.
- The source field `confidence`, fee assets and the decision's `blocked_sides` list (it is the keys of the side reasons).
- Inspection counters other than the depth-sequence one.
- Metrics.Summarize: models the ledger of the summary, not spread capture, adverse selection and per-shock attribution, which are averages and counts of payload fields; quote churn is a method of its own, `Churns.QuoteChurn`.
- Rounding.RoundMultiple: that results are exact multiples of the step is proved for powers of ten, which every pair spec has; a fallback tick may be any number, and rounding to decimals need not give its multiples.
- Ids of orders in the input log are counters too, so orders of two recordings with the same counter are one order here; in the original their time prefix tells them apart.
- Writing the parts of a split to files, the local timestamp of metadata copies and the source path of the input.
- Text order of ids with different prefixes: the tie-break is reached only for equal creation times, for which the prefixes are equal.
