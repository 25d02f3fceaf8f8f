# Verified model of Hanbit's order-and-risk engine

Hanbit trades Hong Kong futures on a paper account and Korean and overseas stocks on live accounts. Its server queues
account queries per bucket, places and tracks orders against a broker that may answer late, twice or not at all, keeps a
fill ledger, judges every order before it leaves, and locks a bucket down when a loss limit or a kill switch says so.
These Dafny modules model that engine and prove what it keeps, over all inputs and over whole runs.

| modules | what they model |
|---|---|
| TrQueue, TrQueueSafety, TrQueueCalls, TrQueueFairness, TrQueueRanks, TrQueueDrain | the account query queue: a machine over its await points, its guarantees, and the class that runs it |
| OrderStates, OrderLedger | the state machine; one order with its fills and its log |
| OrdersDb | the order table with its unique keys, and the repository class |
| BrokerReports | what the broker reports and the fills read from it |
| OrderRuns, OrderRunsSafety, OrderRunsTheorems, OrderRunsHistory | every interleaving of place, cancel, amend, reconcile, orphan registration and streamed fills, with cancelled coroutines and restarts |
| OrderSolo, OrderReconcile, OrderEdits, MarketReconcile, ReconcileRuns, SecondRun, SecondRunWitness, OrderService | what each of these, one query of a reconciliation, and whole runs leave behind when nothing interferes, and the methods that do it |
| RealizedPnl, RealizedCloses | average-cost realised profit and loss |
| Concentration, ConcentrationBounds, ConcentrationExact, Exposure | concentration of a book, projected weights |
| RiskGate, GateExact, GateTheorems | the pre-trade gate |
| DailyLoss, DailyCap, DailyCapRoom, DailyCapExact | the daily-loss latch, the daily notional cap |
| OrderDesk, EntryLockout, LockoutWitness, Boot, KillSwitch | placing through the gate; who is kept out by a quarantine or a latched loss; the paper boot; flattening all positions |
| PositionRows | the position rows two writers share |
| EventStream, EventGaps | the lossy event bus and the client that counts gaps |
| Wrappers, Reals, Permutations | shared helpers |

Where the source updates state step by step there is a class or a loop here, proved against a specification function;
the lemmas are about that function. Quantities, prices, rates and times are exact reals.

Places where the code does less than its documentation suggests, each with the exact condition under which it does
what is hoped:

- The queue wakes the waiters of a cancelled leader, but not another caller whose job the leader had already taken
  (`TrQueueSafety.QuietMeansAllDone`; it happens, `TrQueueSafety.SecondCallerStranded`).
- Fill order is irrelevant for streamed fills; for reported remainders it is not, and the futures query asks for the
  newest execution first (`OrderLedger.RecordedInFull`, `OrderLedger.NewestFirstLosesFills`).
- Reconciling a known order twice is reconciling it once, but a whole run is not idempotent, and it can raise
  (`SecondRun.SecondRunChangesNothingIff`, `ReconcileRuns.RaisesIff`; both happen, `SecondRunWitness.NewcomerExpires`,
  `SecondRunWitness.FilledRaises`). On paper it asks only about symbols with an open order, so with none open it looks
  for no unknown order (`ReconcileRuns.NothingOpenNothingAsked`).
- The daily notional cap bounds entries that do not overlap, next to a reducing order exactly if that order's notional
  is not negative, which nothing checks (`DailyCapExact.ExitSafeIff`, `DailyCapExact.NegativeExitExists`); overlapping
  entries exceed it by at most those counted while the last was on its way (`DailyCap.DayBalanced`), and stay within it
  exactly when each finds room beside all that is pending, which the gate does not check (`DailyCapRoom.CapHoldsIff`).
- A locked bucket sends nothing new that does not reduce a position; what was in flight when the daily loss latched is
  still sent (`EntryLockout.DailyLossLocksEntries`, `LockoutWitness.InFlightEntryIsSent`).
- The kill switch flattens every position with a known average; without one the order stays in doubt and blocks its own
  repetition (`KillSwitch.UnknownAverageNeverSent`).

An accepted placement stays SUBMITTED if its number was taken meanwhile (`OrderSolo.PlaceAlone`).

## Model

| member | source | states |
|---|---|---|
| TrQueue.PickIsFirst | server/app/core/tr_queue.py:137-149 | no waiter comes before the picked one in (aged priority, sequence) order |
| TrQueueRanks.AgedLevel | server/app/core/tr_queue.py:143-147 | with a positive ageing unit, a job that has waited n full units counts n levels above its base priority, never above KILL; without one it never rises |
| TrQueueRanks.YoungGoByPriority | server/app/core/tr_queue.py:143-147 | of two jobs that have both waited less than a unit, the one of higher base priority goes first whatever the ids, and equal ones go by id; and in no other case |
| TrQueueRanks.PickLeads | server/app/core/tr_queue.py:137-149 | so the picked job is at the least level of all waiters, oldest there, and no young job is picked before a more urgent young one |
| TrQueueRanks.SubmittedNow | server/app/core/tr_queue.py:119-132 | a submitted job ages from its submission; on an idle bucket it is picked at once by its own caller |
| TrQueueRanks.CalledWhenDue | server/app/core/tr_queue.py:169-175 | a picked job starts at once if the interval has passed, and otherwise exactly when it has |
| TrQueueRanks.RefusedIsRetried | server/app/core/tr_queue.py:177-196 | a call is repeated if and only if it was refused for its count with retries left; otherwise its caller gets the value or the exception |
| TrQueueRanks.SleepDoubles | server/app/core/tr_queue.py:184-188 | the first back-off is the configured one and each further one twice the one before |
| TrQueueSafety.RunHolds | server/app/core/tr_queue.py:109-196 | in every run a future is pending only while its job is queued, in the leader's hand, or left behind by a cancelled leader; jobs never exceed their retries |
| TrQueueSafety.CompletedOnce | server/app/core/tr_queue.py:188-196 | a completed future never changes again |
| TrQueueSafety.QuietMeansAllDone | server/app/core/tr_queue.py:151-167 | when the bucket is idle, a caller is still waiting if and only if, at some step, somebody else's leader was cancelled with its unfinished job in hand and the caller has not given up since |
| TrQueueSafety.LostIff | server/app/core/tr_queue.py:151-167 | in every state, not only idle ones, the callers left behind are exactly those stranded at some step |
| TrQueueSafety.EveryJobCompletes | server/app/core/tr_queue.py:109-167 | without leader cancellation every submitted job is completed once the bucket is idle |
| TrQueueSafety.CancelledLeaderStrands | server/app/core/tr_queue.py:155-167 | a leader cancelled with another caller's job in hand leaves that caller waiting for ever, unless it gives up itself |
| TrQueueSafety.SecondCallerStranded | server/app/core/tr_queue.py:155-167 | two submits, the first answered, then the leader cancelled: the second caller waits, the first is done |
| TrQueueCalls.CallsNeverOverlap | server/app/core/tr_queue.py:169-196 | at most one call is in flight and calls keep the minimum interval, in every run |
| TrQueueCalls.RetriesBounded | server/app/core/tr_queue.py:177-196 | at most max_retries + 1 calls per job; calls, retries, failures and aborts add up to all invocations |
| TrQueueFairness.OvertakingNeedsRank | server/app/core/tr_queue.py:137-149 | a newer job precedes an older one only by a strictly higher base priority and before the older one has aged out |
| TrQueueFairness.BypassNeedsRank | server/app/core/tr_queue.py:137-167 | the same of every pick of every run |
| TrQueueFairness.AgedWaitIsBounded | server/app/core/tr_queue.py:137-189 | an aged job is preceded only by older jobs, and by at most as many picks as these may still need, however many urgent jobs arrive |
| TrQueueFairness.AgedIsServed | server/app/core/tr_queue.py:137-189 | after more picks than that the aged job has left the queue |
| TrQueueDrain.AccountTrBucket.Pick | server/app/core/tr_queue.py:137-149 | the scan returns the first job in service order: least level, oldest there, priorities respected among young jobs |
| TrQueueDrain.AccountTrBucket.Gate | server/app/core/tr_queue.py:169-175 | the wait ends in the state in which the call may start |
| TrQueueDrain.AccountTrBucket.Requeue | server/app/core/tr_queue.py:184-189 | a refused job sleeps its back-off and queues again with one more attempt |
| TrQueueDrain.AccountTrBucket.Answer | server/app/core/tr_queue.py:190-196 | the waiting caller gets the value or the exception, the counters follow; the step is one of the machine's |
| TrQueueDrain.AccountTrBucket.Drain | server/app/core/tr_queue.py:151-167 | with no new arrivals the drain ends, on the measure of calls still needed, and every caller has its answer |
| TrQueueDrain.AccountTrBucket.Submit | server/app/core/tr_queue.py:109-135 | submitting to an idle bucket returns with the new job completed, by the first call not refused or the last the retries allow, after exactly as many retries, and no other future touched |
| OrderStates.TerminalIsClosed | server/app/orders/state_machine.py:22-61 | a state is terminal exactly when the table allows nothing from it |
| OrderStates.LegalIff | server/app/orders/state_machine.py:22-90 | the table in words: only forward, approved only to submitted, executions and expiry only after an acknowledgement or in doubt, rejection only before |
| OrderStates.ChainClimbs | server/app/orders/state_machine.py:22-90 | every legal history climbs the order of states |
| OrderStates.AtMostFiveChanges | server/app/orders/state_machine.py:22-90 | no order changes state more than five times |
| OrderStates.FiveChangesHappen | server/app/orders/state_machine.py:22-61 | five is reached |
| OrderLedger.ApplyFillKeeps | server/app/repositories/orders_repo.py:255-331 | a fill keeps filled = sum of fills, average times filled = sum of values, the log a legal history, and the working states consistent with the fills |
| OrderLedger.TransitionKeeps | server/app/repositories/orders_repo.py:168-207 | a legal transition keeps the same ledger invariant |
| OrderLedger.DeliverStores | server/app/repositories/orders_repo.py:255-331 | streamed fills of an accepted order are stored once each, with the aggregates and log they call for |
| OrderLedger.DeliveryOrderIrrelevant | server/app/repositories/orders_repo.py:255-331 | any order of delivery with any duplicates gives the same filled, remaining, average and status |
| OrderLedger.DeliverPrefix | server/app/repositories/orders_repo.py:255-331 | new executions of a working order: which are stored, the filled quantity and average they give, the remainder the last one reports or leaves, and the status that follows |
| OrderLedger.RecordedInFull | server/app/repositories/orders_repo.py:292-309 | new executions of a working order with reported remainders are recorded in full if and only if none before the last leaves nothing to do |
| OrderLedger.NewestFirstLosesFills | server/app/repositories/orders_repo.py:292-309 | two executions reported newest first: the older is lost and the order closes short |
| OrdersDb.InsertIsIdempotent | server/app/repositories/orders_repo.py:129-149 | inserting under a known key changes nothing and finds the first row |
| OrdersDb.PlainMoveCannotConflict | server/app/repositories/orders_repo.py:168-207 | a transition that sets no order number never hits the unique index |
| OrdersDb.RegistrationRaises | server/app/repositories/orders_repo.py:129-149 | an insert raises exactly when the key is new and the account, if any, already has the order number |
| OrdersDb.OrdersRepo.InsertOrder | server/app/repositories/orders_repo.py:129-149 | insert or find by key, keeping both unique keys |
| OrdersDb.OrdersRepo.ChangeState | server/app/repositories/orders_repo.py:168-207 | check, update and log in one transaction; an error leaves the table as it was |
| OrdersDb.OrdersRepo.Aggregate | server/app/repositories/orders_repo.py:283-290 | the two sums over the stored fills |
| OrdersDb.OrdersRepo.StoreFill | server/app/repositories/orders_repo.py:255-331 | the fill ledger step, with its result |
| OrdersDb.OrdersRepo.UpdateOrderFields | server/app/repositories/orders_repo.py:209-219 | the unlocked update of an amendment, refused when the number is taken |
| BrokerReports.RowFill | server/app/orders/fill_tracker.py:18-37 | a row becomes a fill exactly if it has an execution, with its quantity, price and remainder |
| BrokerReports.SameEventIff | server/app/orders/fill_tracker.py:27-35 | two rows with an execution get one event key if and only if they have the same execution number, the order number standing in where it is absent or empty |
| BrokerReports.DistinctFillsIff | server/app/orders/fill_tracker.py:27-35 | the fills of a listing have different keys if and only if no two of its rows report one execution |
| BrokerReports.FillsAddUp | server/app/orders/fill_tracker.py:18-37 | the fills of a listing add up to the executed quantity and money it lists |
| BrokerReports.StreamedFill | server/app/adapters/realtime_future.py:71-95 | a message becomes a fill exactly if it names an order and a positive size, with its size and price; two get one key if and only if they name one execution, or one order where they name none |
| BrokerReports.Matching | server/app/services/order_service.py:474-488 | the rows of one order number, none exactly when the broker lists none |
| BrokerReports.OriginsNeverCollide | server/app/adapters/realtime_future.py:71-95 | streamed and reported executions never share an event key |
| BrokerReports.BothOriginsCountTwice | server/app/adapters/realtime_future.py:71-95 | so an execution reported by both is booked twice, whatever the reports say, unless the first closes the order |
| OrderRuns.StepWrites | server/app/services/order_service.py:223-744 | between two awaits at most one repository operation is committed |
| OrderRunsSafety.PlaceOk | server/app/services/order_service.py:246-303 | each step of a placement: legal writes only, under the lock, to its own fresh order |
| OrderRunsSafety.CancelOk | server/app/services/order_service.py:373-394 | each step of a cancellation writes only a working order, inside its lock |
| OrderRunsSafety.AmendStepOk | server/app/services/order_service.py:331-371 | each step of an amendment changes no status, though it takes no lock |
| OrderRunsSafety.ReconcileOk | server/app/services/order_service.py:484-513 | each step of a reconciliation closes only orders it re-read as open, inside their lock |
| OrderRunsSafety.FillsOk | server/app/services/order_service.py:500-503 | each step that books fills, from any source, works on an acknowledged order |
| OrderRunsTheorems.RunKeeps | server/app/services/order_service.py:223-744 | the whole invariant over every interleaving: unique keys, right ledgers, one owner per placement, locks held by who is inside, nothing refused |
| OrderRunsHistory.NoIllegalTransition | server/app/services/order_service.py:275-303 | in no interleaving does any writer attempt an illegal transition |
| OrderRunsHistory.FinishedStaysFinished | server/app/orders/state_machine.py:55-61 | status, log, fills and aggregates of a terminal order never change: FILLED is never overwritten |
| OrderRunsHistory.LedgerAlwaysRight | server/app/repositories/orders_repo.py:168-331 | after any run every order's ledger is right and its log a legal history of at most five changes |
| OrderRunsHistory.AtMostOnePlacementPerKey | server/app/services/order_service.py:246-286 | each client order id reaches the broker at most once, across repeats, exceptions, cancellations and crashes |
| OrderRunsHistory.InDoubtIsNeverResent | server/app/services/order_service.py:277-286 | an order in doubt, or past its submission, is never sent again |
| OrderRunsHistory.HoldersNeverWait | server/app/orders/state_machine.py:93-100 | no coroutine waits for a lock while inside one, so the locks cannot deadlock |
| OrderRunsHistory.NoLockLeaks | server/app/orders/state_machine.py:93-100 | every taken lock belongs to a live coroutine inside it |
| OrderSolo.SoloIsARun | server/app/services/order_service.py:223-744 | what a coroutine does alone is one of the runs of the whole system |
| OrderSolo.PlaceAlone | server/app/services/order_service.py:246-303 | a new key: one row, sent once, ending accepted with its number, rejected or in doubt, or stuck submitted when the number is taken; a known key: nothing happens |
| OrderReconcile.ReconcileAlone | server/app/services/order_service.py:484-513 | reconciling an order rewrites exactly its row |
| OrderReconcile.UnlistedIsClosed | server/app/services/order_service.py:489-498 | an unlisted working order is canceled, or expired after the close, on paper; live orders are left alone |
| OrderReconcile.ListedCatchesUp | server/app/services/order_service.py:499-513 | a listed working order whose rows report different executions, with or without earlier fills, takes over all new ones exactly under the condition on remainders, with the aggregates they give, and ends as the last one says; with nothing new it stays, or expires unfilled at market close on paper |
| OrderReconcile.FirstListing | server/app/services/order_service.py:499-513 | an order listed for the first time has then filled the executed quantity listed, at the listed cost, with the remainder of the last row |
| OrderReconcile.UntouchedBy | server/app/services/order_service.py:484-488 | an order that is closed, an audit row or without an order number is left alone |
| OrderReconcile.ReconcileTwice | server/app/services/order_service.py:484-513 | reconciling a known order twice against one listing is the same as once |
| MarketReconcile.PassTwice | server/app/services/order_service.py:482-513 | a second pass over the known orders with one listing changes none of them |
| MarketReconcile.AllRegister | server/app/services/order_service.py:654-665 | the search over the unknown numbers: one with a known key, or (live) amending an order the account has or just got, is passed over; an insert is attempted for the others; the search raises if and only if one of these is already the account's, and otherwise appends exactly the newcomers |
| MarketReconcile.PaperRaisesIff | server/app/services/order_service.py:464-522 | a symbol's paper query raises if and only if an order of the symbol is open and either the broker does not answer or it lists a number that no open order of the symbol carries, that has no registration key and that is already the account's |
| MarketReconcile.SuccessorsAreLeftOut | server/app/services/order_service.py:654-665 | a listed live number whose first row names an original order the account has is not registered; one that names none is attempted |
| MarketReconcile.LiveWithoutAccount | server/app/services/order_service.py:624-634 | a live market that does not answer is left out, and without an account registers nothing |
| ReconcileRuns.QueriesAre | server/app/services/order_service.py:464-476 | the queries of a run: both live markets, or each paper symbol with an open order once; each for the market's first account |
| ReconcileRuns.NothingOpenNothingAsked | server/app/services/order_service.py:464-472 | with no open paper order a paper run asks, registers and raises nothing |
| ReconcileRuns.RaisesIff | server/app/services/order_service.py:446-525 | a whole run, over the symbols of the open paper orders or over both live markets, raises if and only if one of its queries would on the table the run starts from |
| SecondRun.RunLeaves | server/app/services/order_service.py:446-522 | what a run that does not raise leaves: each order reconciled by the one query it is in the scope of, every other as it was, every number looked into under its key or passed over as a successor, and nothing else but newcomers of these queries |
| SecondRun.SecondRunChangesNothingIff | server/app/services/order_service.py:446-522 | a second whole run over the same listing changes nothing and does not raise if and only if, within the queries it still asks, the first run neither registered an order without executions at paper market close nor closed one whose number is still listed and would be registered |
| SecondRunWitness.NewcomerExpires | server/app/services/order_service.py:504-522 | next to an order that stays in doubt, an unknown order without executions is accepted by the first closing paper run and expired by the second |
| SecondRunWitness.FilledRaises | server/app/services/order_service.py:515-522 | an order of our own, filled by the first run and still listed, makes the second run raise: on live markets, and on paper when another order of its symbol stays open |
| SecondRunWitness.FilledAloneIsQuiet | server/app/services/order_service.py:464-472 | alone on paper it does not, because the second run asks nothing |
| OrderEdits.CancelAlone | server/app/services/order_service.py:373-397 | a confirmed cancellation cancels the order if still working and adds one audit row; otherwise the order is untouched |
| OrderEdits.AmendAlone | server/app/services/order_service.py:331-371 | a confirmed amendment moves the order to its new number, quantity and price unless the number is taken |
| OrderEdits.StreamAlone | server/app/adapters/realtime_future.py:241-261 | a streamed execution is applied to the order with its number and to nothing else |
| OrderEdits.OrphanAlone | server/app/services/order_service.py:565-597 | an order only the broker knows is inserted once, accepted, with its executions applied |
| OrderEdits.LiveKeysAreScoped | server/app/services/order_service.py:708-718 | registration keys tell live markets and order numbers apart |
| OrderEdits.RegisterTwice | server/app/services/order_service.py:565-597 | registering the same listing again changes nothing |
| OrderService.OrderService.Place | server/app/services/order_service.py:246-303 | the placement method does what the uninterrupted coroutine does |
| OrderService.OrderService.Cancel | server/app/services/order_service.py:373-397 | likewise the cancellation |
| OrderService.OrderService.Amend | server/app/services/order_service.py:331-371 | likewise the amendment |
| OrderService.OrderService.ApplyAll | server/app/services/order_service.py:499-503 | the loop over an order's rows delivers all their fills and counts the new ones |
| OrderService.OrderService.ReconcileOrder | server/app/services/order_service.py:484-513 | one order's part of a reconciliation and the differences it counts |
| OrderService.OrderService.ReconcileKnown | server/app/services/order_service.py:482-513 | the loop over the orders of one query, with the differences resolved and the orders without a number |
| MarketReconcile.DifferencesAre | server/app/services/order_service.py:482-513 | what is counted as resolved: executions newly stored on live markets, changed orders on paper; and as unresolved: open orders without a number |
| OrderService.OrderService.RegisterOrphan | server/app/services/order_service.py:565-597 | the registration, and whether it inserted, found its key or raised |
| OrderService.OrderService.RegisterUnknown | server/app/services/order_service.py:654-665 | the loop over the listed numbers with the lookup for successors in the table as it then is, its exception and its count |
| OrderService.OrderService.RunQuery | server/app/services/order_service.py:472-522 | one query: table, exception, and the counts found, resolved and unresolved |
| OrderService.OrderService.Reconcile | server/app/services/order_service.py:433-525 | the whole run, a query per symbol of the open paper orders or one per live market: table, exception and counts |
| OrderService.OrderService.CancelAllOpen | server/app/services/order_service.py:399-431 | over all markets of the bucket: reconciling them first if an order is in doubt, which may raise, every open order with a number is canceled where confirmed, no other order changes, and the confirmations are counted |
| OrderService.ConfirmedAre | server/app/services/order_service.py:413-431 | each confirmed cancellation counts once |
| OrderService.NothingStaysOpen | server/app/services/order_service.py:399-431 | if every cancellation is confirmed, no order of these markets with a number stays open |
| RealizedPnl.MatchFill | server/app/portfolio/realized.py:31-48 | one turn of the loop |
| RealizedPnl.RealizedPnlCcy | server/app/portfolio/realized.py:17-49 | the loop computes the realised total of the whole fill list |
| RealizedCloses.CloseRealizes | server/app/portfolio/realized.py:39-46 | a fill against the position that does not exceed it realises multiplier times price minus average on exactly the quantity closed, and leaves the average |
| RealizedCloses.FlipRealizes | server/app/portfolio/realized.py:39-48 | one that exceeds it realises on the whole position and opens the rest at its own price |
| RealizedCloses.OpenRealizesNothing | server/app/portfolio/realized.py:32-38 | any other fill realises nothing and its cost is averaged in |
| RealizedCloses.AverageMovesOnlyOnAdding | server/app/portfolio/realized.py:32-48 | while a position keeps its direction, only a fill in that direction at another price moves the average |
| RealizedCloses.BuysThenSale | server/app/portfolio/realized.py:18-49 | buys followed by a sale of at most their sum realise multiplier times quantity sold times price minus average cost, over all lists of buys |
| RealizedCloses.MultiplierScales | server/app/portfolio/realized.py:24-45 | the multiplier scales what is realised and nothing else |
| RealizedPnl.FoldConserves | server/app/portfolio/realized.py:27-49 | realised = multiplier times (cost still in the book minus cash paid) |
| RealizedPnl.MarkToMarket | server/app/portfolio/realized.py:27-49 | at every mark, realised plus open profit = value held minus cash paid, through closes and flips |
| RealizedPnl.FlatMeansCashFlow | server/app/portfolio/realized.py:27-49 | a flat book has no average and has realised exactly the cash flow |
| RealizedPnl.FlatRealizedIgnoresOrder | server/app/portfolio/realized.py:27-49 | any reordering that ends flat realises the same |
| RealizedPnl.RealizedSameIff | server/app/portfolio/realized.py:27-49 | two orders of the same fills realise the same if and only if nothing is left open, or at the same average |
| RealizedPnl.OpenRealizedDependsOnOrder | server/app/portfolio/realized.py:27-49 | with a position left open the order matters |
| RealizedPnl.AdditiveAtFlat | server/app/portfolio/realized.py:27-49 | realised amounts add up across flat points |
| RealizedPnl.NegationMirrors | server/app/portfolio/realized.py:27-49 | mirrored trades negate position and profit |
| RealizedPnl.SplitInTwo | server/app/portfolio/realized.py:31-48 | two same-sign parts of a fill equal the fill, also across a flip |
| RealizedPnl.SplittingChangesNothing | server/app/portfolio/realized.py:17-49 | anywhere in a list, a fill may be split into any same-sign parts at its price |
| Concentration.ComputeConcentration | server/app/portfolio/metrics.py:37-63 | the loop and the report it builds |
| ConcentrationExact.FiguresAre | server/app/portfolio/metrics.py:33-63 | both indices are sums of squared weights, symbols are counted once each, effective number and normalised index as the index gives them |
| ConcentrationExact.LargestIs | server/app/portfolio/metrics.py:58 | the largest weight is that of a symbol held and no symbol has more |
| Exposure.WeightIs | server/app/portfolio/metrics.py:29-30 | each reported weight is the value under its key over the worth of the book |
| ConcentrationBounds.BookBounds | server/app/portfolio/metrics.py:29-63 | for every valued book: weights sum to 1, 1/n ≤ HHI ≤ top1 ≤ 1, effective n in [1, n], normalised HHI in [0, 1] |
| ConcentrationBounds.EmptyBook | server/app/portfolio/metrics.py:37-63 | a book of no value reports zeros |
| ConcentrationBounds.CurrencyAtLeastSymbol | server/app/portfolio/metrics.py:37-63 | with one currency per symbol the currency HHI is at least the symbol HHI |
| Exposure.ProjectionIsAfterFill | server/app/portfolio/metrics.py:66-94 | with nothing committed the projected weights are the report's weights after the fill |
| Exposure.CommittedHidesWeight | server/app/portfolio/metrics.py:66-94 | a projected weight is the value under its key after the fill over the worth after the fill plus everything committed: at most the weight after the fill, equal exactly if nothing is committed or nothing is under the key |
| Exposure.NoViolations | server/app/portfolio/metrics.py:97-106 | no violation is listed if and only if all three weights are within limits |
| RiskGate.Gate.ReduceOnlyOk | server/app/risk/gate.py:389-403 | the reduce-only test on the first position in the symbol |
| RiskGate.Gate.CheckLimits | server/app/risk/gate.py:194-287 | the accumulated reasons, in order |
| RiskGate.Gate.Check | server/app/risk/gate.py:112-295 | the decision, audited exactly once, with a risk event exactly when it is not a plain pass |
| GateExact.RejectsAre | server/app/risk/gate.py:194-284 | steps 3 to 7 list exactly the limits the order breaks, each spelled out in quantities, prices, rates and holdings, once and in order |
| GateExact.DecisionIs | server/app/risk/gate.py:129-295 | the whole decision: verdict, the reason or reasons in order, the warnings, and whether an exit was reclassified |
| GateExact.AdmittedIff | server/app/risk/gate.py:129-295 | an order is let through if and only if the engine is active, its market open, and it reduces a position or finds the bucket unlocked and breaks no limit |
| GateExact.ReducesIff | server/app/risk/gate.py:389-403 | an exit reduces if and only if the first position in its symbol is on the other side and no smaller |
| GateExact.ReducingIsSafe | server/app/risk/gate.py:389-403 | a reducing order moves the position towards zero by its size and never past it |
| GateTheorems.RatesAreCautious | server/app/portfolio/fx.py:62-95 | orders are converted at no less than the rate, balances at no more, with equality exactly for won or without margin |
| GateTheorems.GateMonotone | server/app/risk/gate.py:129-295 | an order admitted at one quantity is admitted at every smaller one, reclassified exits included |
| GateTheorems.AdmittedKeepsWeights | server/app/risk/gate.py:238-259 | an entry admitted on a non-empty book leaves all three weights after its fill within limits |
| DailyLoss.DailyLossMonitor.EvaluateTick | server/app/risk/daily_loss.py:45-95 | one evaluation: reset on a new day, and otherwise halt, event and budget from how far realised and total have fallen below the baseline |
| DailyLoss.HaltsIff | server/app/risk/daily_loss.py:76-86 | within its day an active bucket is halted if and only if realised fell by the realised limit or the total by the other one (or a limit is not positive) |
| DailyLoss.LowerHaltsSooner | server/app/risk/daily_loss.py:76-86 | with positive limits nothing at or above the baseline halts, and what halts at one tick halts at every lower one |
| DailyLoss.DayOutcome | server/app/risk/daily_loss.py:74-93 | within a day the baseline never moves, the bucket is halted exactly when some evaluation finds it fallen too far below, and then with exactly one event |
| DailyLoss.NewDayClears | server/app/risk/daily_loss.py:55-70 | a new day clears the latch, rebases and zeroes the notional; only killed persists |
| DailyCap.BumpIs | server/app/services/order_service.py:312-328 | what an accepted live order adds: its size in won at the raised rate, and nothing without a price or a known currency |
| DailyCap.AdmittedFits | server/app/risk/gate.py:230-236 | a live entry the gate admits fits under the cap on top of what was used |
| DailyCap.DayBalanced | server/app/services/order_service.py:306-328 | over a day, however orders overlap: the counter is all counted notional; entries, with the exits counted before the last was judged, exceed the cap by at most the entries counted while it was on its way |
| DailyCap.EntriesWithinLate | server/app/services/order_service.py:306-328 | if no counted exit is negative, entries exceed the cap by at most that lateness |
| DailyCap.EntriesStayUnderCap | server/app/services/order_service.py:306-328 | the day's live entries sum to at most the cap when no two overlap and no counted exit has a negative notional |
| DailyCapExact.ExitSafeIff | server/app/risk/gate.py:190-192 | a live exit leaves the cap intact on every day it is the only exit of, without overlapping entries, if and only if its notional is not negative |
| DailyCapExact.NegativeExitLiftsCap | server/app/risk/gate.py:190-192 | for any live exit of negative notional and any cap, a day whose entries exceed the cap by what the exit took off |
| DailyCapExact.NegativeExitExists | server/app/risk/gate.py:190-192 | a share sold at a negative price is such an exit |
| DailyCapExact.TwiceTheCap | server/app/risk/gate.py:190-192 | the day it makes, with entries of twice the cap |
| DailyCapRoom.CountingSafeIff | server/app/services/order_service.py:306-328 | whatever is pending, however the broker answers it and in whatever order it is counted, the entries stay within a cap if and only if those counted and the positive notionals of those pending fit it together |
| DailyCapRoom.CapHoldsIff | server/app/services/order_service.py:223-328 | however many entries overlap, a day keeps them within the cap at every moment and under every answer if and only if each entry, when let through, finds room beside all that is counted and pending |
| DailyCapExact.TwoAtOnce | server/app/services/order_service.py:223-328 | two entries judged on one counter: counted, they add up and the second is late by the first; they are safe if and only if their positive notionals fit the cap together |
| DailyCapExact.TwoAtOnceExceedCap | server/app/services/order_service.py:223-328 | two entries of the whole cap do |
| OrderDesk.OrderDesk.Place | server/app/services/order_service.py:223-310 | one audited decision; a rejected order touches nothing; an admitted one is placed, handed to the broker if it can be sent, and adds its notional when accepted |
| EntryLockout.QueryQuarantined | server/app/repositories/orders_repo.py:543-555 | the quarantine query |
| EntryLockout.RunAccounted | server/app/services/order_service.py:223-277 | in every run, every order of the bucket sent or on its way was in flight at the start or got past the gate since |
| EntryLockout.QuarantineLocksEntries | server/app/risk/gate.py:153-158 | once an order of the bucket is quarantined, in every continuation only reducing orders get past the gate, and every order sent reduces a position and was admitted since, or was in flight already |
| EntryLockout.QuarantineStopsSends | server/app/risk/gate.py:153-158 | with nothing in flight at the quarantine, every order of the bucket sent later is a reducing order admitted later |
| EntryLockout.DailyLossLocksEntries | server/app/risk/gate.py:136-152 | once the daily loss is latched, until a new day only reducing orders get past the gate, and every order sent is one of these or was in flight at the latch, with baseline fixed and no second event |
| LockoutWitness.InFlightEntryIsSent | server/app/services/order_service.py:223-277 | an entry admitted before the latch is indeed sent after it |
| Boot.BootPaperBucket | server/app/orders/boot.py:110-165 | reconcile the symbols of the open paper orders, which may raise at any of its queries; quarantine exactly the unresolved, one critical event each; decide the engine state; report whether entries are blocked |
| Boot.BootLeavesNothingUnknown | server/app/orders/boot.py:63-68 | afterwards no open paper order is in flight without an order number |
| Boot.UnresolvedAtBootLocksEntries | server/app/orders/boot.py:127-150 | an order the boot could not resolve keeps entries out whatever follows: everything sent later reduces a position and was admitted later |
| KillSwitch.FlattenAll | server/app/risk/killswitch.py:171-211 | the loop: skipped are exactly the positions under one contract or without a direction, fired (or queued for reopening when closed) all others, and what the desk then did |
| KillSwitch.ExitIs | server/app/risk/killswitch.py:240-280 | the exit of a position: opposite side, all its whole contracts, its average as the limit, a key of the run |
| KillSwitch.PassesItsOwnHalt | server/app/risk/gate.py:129-192 | the exit of a held position passes whatever is halted, killed or quarantined |
| KillSwitch.FlattenHandsExits | server/app/risk/killswitch.py:171-267 | whatever the sizes, exactly one order per position of at least one contract with a direction and a known average not yet flattened under this run |
| KillSwitch.EveryPositionIsDue | server/app/risk/killswitch.py:240-267 | under an unused run, that is every such position |
| KillSwitch.UnknownAverageNeverSent | server/app/adapters/overseas_future_order.py:104-107 | without an average the broker is never asked, the order stays in doubt and its key blocks the repetition |
| KillSwitch.FlattenTwice | server/app/risk/killswitch.py:240-267 | repeating a run sends nothing more |
| KillSwitch.ExitCloses | server/app/risk/killswitch.py:240-280 | a full fill leaves less than one contract, and nothing of a whole position; a partial one never flips it |
| PositionRows.PositionTable.UpsertAuthority | server/app/repositories/orders_repo.py:421-455 | the reconciliation's columns, and no others |
| PositionRows.PositionTable.UpsertMarks | server/app/repositories/orders_repo.py:457-492 | the tracker's columns, keeping the first rate at purchase |
| PositionRows.RowIsSettled | server/app/repositories/orders_repo.py:421-492 | after any interleaving: last authority values, last marks, first known rate at purchase |
| PositionRows.FirstFxIsFirst | server/app/repositories/orders_repo.py:482-489 | that rate is the first that is not null |
| PositionRows.WritersCommute | server/app/repositories/orders_repo.py:421-492 | only the order within each writer matters |
| EventStream.EventBus.Subscribe | server/app/core/event_bus.py:23-26 | a fresh empty queue is added |
| EventStream.EventBus.Unsubscribe | server/app/core/event_bus.py:28-29 | that queue and no other is dropped |
| EventStream.EventBus.Publish | server/app/core/event_bus.py:31-45 | one number per message and topic; every subscriber gets it or drops it on a full queue |
| EventStream.Connection.Publish | server/app/core/event_bus.py:31-45 | a publication is one step of every connection's machine |
| EventStream.Connection.Forward | web/src/lib/ws/store.ts:89-117 | so is the delivery of the oldest message to the client's store |
| EventGaps.LostWhenFull | server/app/core/event_bus.py:38-45 | a message is lost exactly when the queue is full, and a bounded queue never overflows |
| EventGaps.DeliveredInOrder | server/app/core/event_bus.py:31-45 | each topic's numbers arrive strictly increasing |
| EventGaps.GapsTellLosses | web/src/lib/ws/store.ts:89-98 | the gap counter stays at zero if and only if nothing between the first and last received message of any topic was lost |
| EventGaps.BuffersHoldNewest | web/src/lib/ws/store.ts:100-113 | each buffer holds the newest min(80, n) messages, newest first, and the halt snapshot is the latest received |

## Left out

- Rounding: floats are exact reals here; integer sizes stay integers.
- TrQueueDrain.AccountTrBucket.Drain: models a leader to whom nobody else submits, with call times in whole units; submissions during a drain are in the machine of TrQueue.
- Several buckets in one queue object: the machine is one bucket; calls and retries are counted per bucket, not per object, and job numbers may skip.
- Queue settings: max_retries is a natural number; calls started after a negative retry limit are not modelled.
- OrderRuns.ReconcileStep: one coroutine per order and one per unknown order number, rather than one loop over all; that allows more interleavings than the code has.
- MarketReconcile: the broker lists the same rows to a repeated query; a number is matched within the rows of one query.
- Reads inside a step: a status read and the decision on it are one step, the write is another; clock, instruments, metrics, published payloads and audit rows of order events do not appear.
- The trading engine's state and the realtime flag guard when amendments and streamed fills may start; the machine lets them start at any time.
- The live boot and the position synchronisation of a reconciliation; the boot takes the synchronisation's success as a parameter. Live runs are those of a server that allows live trading.
- BrokerReports.Tc3ToFill: takes the message fields already trimmed and parsed.
- Double reporting of one execution by stream and query is shown, not solved: the source documents it as open and keeps the stream switched off.
- RiskGate.PreCheck: always has rates and settings, as the server constructs it; the comparisons of trading mode with market can never fail and are not modelled; `check_amend` repeats steps 3 to 5 and is left out.
- GateTheorems.GateMonotone: needs prices, multipliers, values, rates and commitments that are not negative.
- DailyCap: the rate is fixed between an order's judgement and its count; a server that stops between acceptance and count leaves the order uncounted.
- Of the kill switch: writing the halt rows, raw cancellation of quarantined orders, the live side of level 2, `resume_pending_flatten` and releasing, which repeat operations modelled here.
- EventStream: one connection; trimming, reconnects and messages without a number are not modelled.
- Generated client order ids and audit-row keys are parameters.
- Broker adapters, sessions, SQL, HTTP and WebSocket plumbing, screens, strategies, whitelists, quotes and seeds: calls into code this model cannot see are parameters or absent.
