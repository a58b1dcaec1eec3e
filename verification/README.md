# Verification of the average-cost ledger

A Dafny model of the portfolio ledger and of everything the dashboard derives from it, with proofs of the properties
the code is built on. `dafny verify dfyconfig.toml` checks the whole project.

**What is modelled.** A holding's ledger is a list of dated events (opening, buy, sell, split, bonus, dividend, merger).
The replay sorts it stably and folds it at average cost. A sell that exceeds the shares held waits in a queue for the
rest of its day; only a day that still ends short is an oversell, and shares are then clamped at zero. On top of the
replay the model has:

- the write path: create, update and delete with rollback, holdings and opening dates, and the stored position;
- history: as-of ledgers, snapshot rows with manual overrides, the daily build and the heal after a backdated write;
- the CSV imports of trades and dividends, with occurrence-counting duplicates and all-or-nothing commits;
- the figures read off the ledger: investment delta, dividend overlay and tab, gold overlay;
- two text codecs of the frontend: the CSV parser, and Indian digit grouping with its decimal parser.

**How it is modelled.** Shares and money are exact reals, dividends are whole cents, instants are nanoseconds, and a
day is an instant divided by the length of a day. Code that changes state step by step is a method or a class proved
equal to a specification function (`Ledger.Replay`, `WritePath.UpdateSpec`, `Heal.HealedRow`, ...); the theorems are
lemmas about those functions. Stores are sequences and maps, a store transaction is all or nothing, and new identifiers,
clock readings, quotes and the previous row's lines are parameters. Some proofs hide definitions they do not need.

| File | What it holds |
|---|---|
| `Sequences`, `Money` | filters, maps, sums; rounding and cents |
| `Ledger` | events, the replay as a function and as the source runs it |
| `ReplayOrder`, `ReplayState` | the stable sort; what every replay step keeps |
| `EffectOrder`, `PositionLaws` | in which order events take effect, and what each does to a position |
| `PlainReplay`, `Erasure`, `AsOfReplay`, `SplitAdjustment`, `Verdict`, `BuySafety`, `Conservation` | laws of the replay |
| `Restamping`, `Book`, `WritePath`, `UndoLaws` | the currency on events, the stores, the write path, and what one write undoes of another |
| `RequestLaws` | what an accepted request leaves in the ledger, on the request's own fields |
| `Imports`, `DividendImport`, `TradeImport`, `ImportLimits` | the occurrence rule, the two imports, and when a commit fails |
| `SheetLaws` | what an import does with a sheet, on the sheet's own rows |
| `LedgerMachine`, `HoldingLaws` | every ledger write as one state machine; what writes on holdings leave, and the copied currencies |
| `Snapshots`, `RowMachine`, `Heal`, `HistoryLaws` | history rows, the daily build and the heal |
| `RowFigures` | what a row shows, on quotes, stored closes, positions and typed amounts |
| `EmptyOpenings`, `HealReach`, `UpdateReach`, `HoldingHistory`, `WriteHistory` | which past rows a write can change, and which of them its heal reaches |
| `HistoryMachine` | ledger and history as one state machine |
| `InvestmentDelta`, `Tallies`, `DividendHistory`, `DividendView`, `GoldHistory` | figures derived in one pass, against filters and sums |
| `FigureLaws` | the derived figures on dates, currencies and amounts |
| `Csv`, `FormNumbers`, `NumberReadings` | the codecs, and what every typed number is read as |

**Where the code and its comments or expectations part.** Each comes with a concrete witness, with the
condition under which it cannot happen, or with both as an if-and-only-if.

- The comment above `settle` says a ledger that never oversells never waits. `PlainReplay.AcceptedLedgerCanQueue` is an
  accepted ledger that does; the exact condition is that every sell fits when it comes (`NeverQueuesIffSellsFit`).
- A sell waiting for the split of its own day is not rescaled by it (`SplitAdjustment.SellBeforeSplitIsNotScaled`).
  Folding a split into the earlier quantities is right when nothing waits for it (`SplitAdjustmentPreservesMeaning`); for an
  accepted ledger whose other splits fall on days without sells, exactly when nothing waits or the ratio is one
  (`FoldingPreservesIffNothingWaits`).
- One more buy can turn an accepted ledger into an oversold one (`BuySafety.ExtraBuyCanOversell`), and an import without
  invalid rows can fail at its commit (`ImportLimits.ValidImportCanFail`). Neither happens when no sell waits as a split
  is reached (`AddingBuysIsSafe`, `TradeImport.CleanImportCommits`). A buy directly in front of a split is always safe
  exactly when the split does not release the waiting head of the queue (`BuysInFrontAreSafeIff`).
- A rejected delete re-inserts the event at the end. The replay order is kept exactly when no later event of the holding
  ties with it (`WritePath.RejectedDeleteKeepsTheOrderIff`); with a tie the stored profit can move, and the stored position
  can be that of no replay (`UndoLaws.RejectedDeleteCanMoveProfit`, `RejectedDeleteCanBreakTheProjection`).
- A write heals history from its own day, but an opening counts from its declared day, and from ever when it declares none.
  The heal of a delete, a create or an update always suffices exactly under `HealReach.DeleteHealsIff`, `CreateHealsIff` and
  `UpdateReach.UpdateHealsIff`.
- Opening, dating, editing and dropping a holding heal nothing. Past rows stay right exactly under the conditions of
  `HoldingHistory.OpenKeepsHistoryIff`, `RedateKeepsHistoryIff`, `EditKeepsHistoryIff` and `DropKeepsHistoryIff`; in
  particular a holding opened with shares makes every past row with lines stale, and so can dating an opening for the first
  time.
- A write dated today is healed into no row, so today's row, if already built, is wrong from then on
  (`HistoryMachine.TodaysBuyIsMissed`). The scheduled build runs just after midnight, for the day before, and values the
  positions stored at that moment: it puts the row right (`TheBuildRepairsIt`) exactly when every tracked holding still
  stands where it stood at the end of that day (`HistoryMachine.BuiltRowIff`). A write that gets in between midnight and the
  build leaves the row wrong (`EarlyBuySpoilsTheBuild`).
- Healing twice differs from healing once exactly when holdings that share a symbol without a stored close disagree
  on their as-of position (`HistoryLaws.HealTwiceIsHealOnce`; two such holdings: `HealReach.SharedSymbolHealsTwice`).
- The overlay function loses a day's own dividends when the day is listed twice (`DividendHistory.RepeatedDateLosesItsMoney`;
  exactly when: `OnDayIsRightIff`). A History request lists each stored row once, so it does not meet this case.
- A CSV record without fields reads back as one empty field, and a last line of one empty field without a line break is
  lost (`Csv.RoundTripIffNoEmptyRecord`). The number codec misreads exactly the renderings named in
  `FormNumbers.Ambiguous`; in decimal mode these are whole numbers of four or five digits.

## Model

| member | source | states |
|---|---|---|
| Money.Round2IsRoundCents | backend/internal/domain/snapshot.go:150 | the two rounding helpers of the code base are one function, for negative amounts too |
| Money.RoundCentsIdempotent | backend/internal/domain/dividend.go:30-32 | what is stored is what every total sums: rounding again changes neither the amount nor its cents |
| Ledger.Replayer.SellShares | backend/internal/services/ledger.go:57-71 | the sell closure: clamp, flag, credit less average cost |
| Ledger.Replayer.SettleQueue | backend/internal/services/ledger.go:79-84 | the settle closure drains the queue from its head, all of it at the end of a day, otherwise while the head fits |
| Ledger.Replayer.ApplyEvent | backend/internal/services/ledger.go:93-117 | the switch over event types, with the guards on quantity and ratio |
| Ledger.Replayer.ReplayEvent | backend/internal/services/ledger.go:86-119 | one turn of the loop: settle the previous day, wait or take effect, settle what fits |
| Ledger.RecomputePosition | backend/internal/services/ledger.go:32-128 | the loop over the sorted ledger computes the replay function: position and oversell verdict |
| ReplayOrder.SortIsTheStableSort | backend/internal/services/ledger.go:33-47 | a list is the sort of a ledger if and only if it is in replay order and keeps every group of ties in ledger order |
| ReplayOrder.SortFiltered | backend/internal/services/ledger.go:33-47 | sorting commutes with dropping events |
| ReplayOrder.PermutationsOfDistinctKeysSortAlike | backend/internal/services/ledger.go:33-47 | with pairwise distinct keys every ordering of the ledger sorts to the same list |
| ReplayOrder.MovingToTheEndKeepsTheOrderIff | backend/internal/services/ledger.go:33-47 | moving an event to the end of the input leaves the replay order alone if and only if no later event ties with it |
| ReplayState.RunKeepsSound | backend/internal/services/ledger.go:57-120 | after every event: shares non-negative, no basis without shares, the head of the queue does not fit, and the queue holds sells of the current day only |
| ReplayState.SettleEarly | backend/internal/services/ledger.go:86-89 | settling a day as soon as none of its events is left never shows in the result |
| EffectOrder.ReplayFollowsTheOrder | backend/internal/services/ledger.go:72-120 | for every ledger, the replay is the plain fold of its events in the order in which they take effect; that order is described on its own, by whose turn it is, without the settling loop |
| EffectOrder.OvertakingIsOnArrival | backend/internal/services/ledger.go:72-92 | an event takes effect before one it follows in replay order only as it arrives: what it passes are earlier sells of its day still waiting, and the first of them asks for more shares than are held just then; so no sell leaves the queue while an earlier one waits |
| EffectOrder.EverythingTakesEffect | backend/internal/services/ledger.go:85-120 | every event takes effect exactly once, and those that are no sells in replay order |
| EffectOrder.QueueIsInReplayOrder | backend/internal/services/ledger.go:89-92 | after any run over distinct keys the waiting sells stand in replay order |
| PositionLaws.LaterEventMoves | backend/internal/services/ledger.go:24-31 | the average-cost method for every ledger and every event of a later day, on positions alone: a sell that leaves shares leaves their average cost and adds its amount less that cost to the profit; a buy adds shares and cost; a split or bonus scales shares and keeps their cost; a dividend adds its cents |
| PlainReplay.NeverQueuesIffSellsFit | backend/internal/services/ledger.go:72-77 | the queue is never used exactly when every sell fits when it comes, and the run is then the plain fold |
| PlainReplay.FittingLedgerIsThePlainFold | backend/internal/services/ledger.go:72-77 | such a ledger is accepted and its position is the plain fold's |
| PlainReplay.AcceptedLedgerCanQueue | backend/internal/services/ledger.go:72-77 | the comment's converse fails: an accepted ledger whose sell waits for a same-day buy |
| Erasure.DividendsAndMergersAreErasable | backend/internal/services/ledger.go:85-120 | for every ledger, deleting all dividends and mergers changes neither shares, average cost, profit nor verdict |
| Erasure.DividendTotalIsTheSum | backend/internal/services/ledger.go:51-54 | the replay's dividend total is the sum of the dividends' cents, whatever the order and the rest of the ledger |
| Erasure.ReplayIgnoresOrder | backend/internal/services/ledger.go:33-47 | permutation invariance: if the events that move a position have distinct keys, every ordering gives the same answer |
| Erasure.SameActiveOrderSameReplay | backend/internal/services/ledger.go:33-47 | ledgers with the same events, whose position-moving events sort to the same list, replay alike, dividend total included |
| AsOfReplay.AsOfLedger | backend/internal/services/snapshot_recompute.go:211-226 | the loop keeps the events in effect before the cutoff, openings by their declared date |
| AsOfReplay.SortedAsOfIsAPrefix | backend/internal/services/snapshot_recompute.go:198-226 | sorted, the as-of ledger is a prefix of the ledger and the later events are the rest |
| AsOfReplay.AsOfIsTheSettledPrefix | backend/internal/services/snapshot_recompute.go:211-226 | for every ledger: the as-of replay reports the settled end-of-day state, and the events left replay on from exactly that state |
| AsOfReplay.AsOfEqualsPrefix | backend/internal/services/snapshot_recompute.go:211-226 | when no opening declares a later day, the full replay passes through the as-of state at the end of the day |
| SplitAdjustment.RunScaled | backend/internal/services/ledger.go:57-120 | replaying a ledger with every quantity scaled gives the scaled state at every step, queue included |
| SplitAdjustment.SplitAdjustmentPreservesMeaning | backend/internal/services/ledger.go:107-112 | dropping a split or bonus and scaling every earlier quantity leaves position and verdict unchanged when no sell waits as it is reached |
| SplitAdjustment.FoldingPreservesIffNothingWaits | backend/internal/services/ledger.go:79-112 | for an accepted ledger whose other splits fall on days without sells: it leaves the replay unchanged if and only if the ratio is one or nothing waits |
| SplitAdjustment.SellBeforeSplitIsNotScaled | backend/internal/services/ledger.go:79-92 | a concrete ledger where a waiting sell meets the split of its day |
| Verdict.DayVerdict | backend/internal/services/ledger.go:72-120 | a day without rescaling ends with max(0, start + bought - sold) shares and is flagged exactly when that balance is negative |
| Verdict.DayOrderIsFree | backend/internal/services/ledger.go:72-120 | shares and verdict of such a day do not depend on the order of its events, although fitting sells jump the queue |
| Verdict.CoveredIffAccepted | backend/internal/services/ledger.go:72-120 | from any reachable state, the rest of a ledger is accepted exactly when no day still to be settled ends short |
| Verdict.AcceptedIffEveryBalanceCovers | backend/internal/services/ledger.go:24-26 | a ledger without splits is accepted if and only if the net quantity up to the end of every day is non-negative |
| Verdict.AcceptedSharesAreTheSum | backend/internal/services/ledger.go:124-127 | an accepted ledger without splits owns exactly what was opened and bought less what was sold |
| BuySafety.DominatesRun | backend/internal/services/ledger.go:72-120 | a state with no fewer net shares stays accepted along any later events the smaller one is accepted along, as long as nothing waits at any rescale of the smaller run |
| BuySafety.AddingABuyIsSafe | backend/internal/services/ledger.go:72-120 | a buy put anywhere into an accepted ledger in which no sell waits at a split or bonus keeps it accepted, and still none waits |
| BuySafety.AddingBuysIsSafe | backend/internal/services/trade_import.go:325-358 | ... and so does any number of buys, at any dates |
| BuySafety.SplitsOffSellDaysFindNoneWaiting | backend/internal/services/ledger.go:86-112 | no sell waits at a split or bonus when none shares a day with a sell |
| BuySafety.ReleaseMakesABuyUnsafe | backend/internal/services/ledger.go:79-112 | whenever a split or bonus lets a waiting sell through with shares to spare, some buy in front of it makes some accepted continuation oversell |
| BuySafety.BuysInFrontAreSafeIff | backend/internal/services/ledger.go:79-112 | a buy directly in front of a split or bonus keeps every continuation accepted (nothing waiting at its later rescales) if and only if the ledger is oversold already or the rescale does not release the head of the queue |
| BuySafety.ExtraBuyCanOversell | backend/internal/services/ledger.go:107-112 | a condition is needed: one extra buy makes a concrete accepted ledger with a split on a sell's day oversell |
| Conservation.CashIsConserved | backend/internal/services/ledger.go:57-71 | for every ledger, oversold or not: profit plus cost of counted openings and buys equals sell credits plus seeds plus shares at average cost |
| Conservation.PositionsAreSolvent | backend/internal/services/ledger.go:124-127 | shares are never negative, and average cost is zero when flat |
| Conservation.ReplayStartsFromBaseline | backend/internal/services/ledger.go:33-47 | the replay is the replay of the other events from the summed openings |
| Conservation.OpeningDatesAreIrrelevant | backend/internal/services/holdings.go:242-264 | changing the dates of openings changes nothing that the replay reports |
| Book.Store.DeleteById | backend/internal/persistence/transactions.go:174-184 | removes the event with the id and nothing else |
| Book.ListingOrderIsAbsorbed | backend/internal/persistence/transactions.go:23-50 | the store's own sort never shows: listings that keep ties replay alike |
| WritePath.RecomputeAndPersist | backend/internal/services/position.go:28-46 | persists the replay exactly when it is not oversold and the holding exists, otherwise changes nothing |
| WritePath.Create | backend/internal/services/transactions.go:177-222 | validates, inserts, re-derives, and on oversell removes the event again; the projection holds before and after |
| WritePath.Update | backend/internal/services/transactions.go:226-285 | patches an event in place and restores it on oversell; the projection holds before and after |
| RequestLaws.CreateRecordsTheRequest | backend/internal/services/mapper.go:186-210 | an accepted create adds one event, stamped with the holding's currency, and from its instant on what was typed: shares, money spent and credited, seed, ratio and dividend money, each from its own field; no other ledger changes |
| RequestLaws.UpdateRecordsTheRequest | backend/internal/services/transactions.go:226-285 | an accepted update takes out what the event recorded and puts in what was typed, keeps its place, stamp and currency, and declares the day of an opening moved to another one |
| RequestLaws.MovedOpeningCountsFromItsDay | backend/internal/services/transactions.go:255-265 | an opening moved to another day counts in history from that day on, and one left on its day as before |
| RequestLaws.RefusedIffMalformed | backend/internal/services/transactions.go:361-406 | a create or update is refused as invalid exactly when a field its type needs is missing or out of range, and whatever is refused leaves the book as it was |
| WritePath.Delete | backend/internal/services/transactions.go:289-327 | removes an event and re-inserts it on oversell; the projection holds after, unless the delete was rejected and a later event ties with the one put back |
| WritePath.OpenHolding | backend/internal/services/holdings.go:100-172 | a new holding with its opening event starts projected |
| HoldingLaws.OpeningRecordsTheForm | backend/internal/services/holdings.go:100-172 | a new holding has the typed symbol, script and currency (rupees unless euros); with shares or profit to seed exactly one opening is added, with the typed figures, dated now |
| WritePath.SetOpeningDate | backend/internal/services/holdings.go:242-264 | stamps the opening and re-derives; it cannot oversell and moves no position, which is why it needs no rollback |
| HoldingLaws.DatingStampsTheOpening | backend/internal/services/holdings.go:242-264 | the last opening of the holding gets the day as its date and its declared date; every other event and every holding stays |
| Restamping.ReplayIgnoresCurrency | backend/internal/services/holdings.go:216-224 | for every ledger, rewriting the currency of its events moves no figure of the replay and no verdict |
| WritePath.EditHolding | backend/internal/services/holdings.go:176-226 | edits script, symbol and a valid currency, restamps the holding's events, and moves no position |
| HoldingLaws.EditTakesOverTheForm | backend/internal/services/holdings.go:176-226 | an edit takes over script, given symbol and valid currency, stamps that currency on the holding's events and on no other, and changes nothing else |
| WritePath.DropHolding | backend/internal/services/holdings.go:268-293 | removes the holding with its whole ledger and leaves every other ledger and position alone |
| HoldingLaws.DropTakesOutTheLedger | backend/internal/services/holdings.go:268-293 | exactly the holding and its events go |
| WritePath.RejectedDeleteChangesNoReplay | backend/internal/services/transactions.go:311-323 | a rejected delete keeps all events; when no later event of the holding ties with the one put back, it keeps all positions and what every ledger replays to |
| WritePath.RejectedDeleteKeepsTheOrderIff | backend/internal/services/transactions.go:311-323 | a rejected delete keeps the replay order of the position-moving events if and only if no later one ties with the event put back |
| UndoLaws.RejectedDeleteCanBreakTheProjection | backend/internal/services/transactions.go:311-323 | a concrete rejected delete, of a split tied with a later sell, after which the stored position is no replay |
| UndoLaws.RejectedDeleteCanMoveProfit | backend/internal/services/transactions.go:311-323 | a concrete rejected delete, of a buy tied with a later buy, after which the stored profit differs |
| WritePath.RecomputeAll | backend/internal/services/dividends.go:221-233 | re-deriving a batch of holdings succeeds exactly when none of their ledgers is oversold |
| LedgerMachine.StepKeepsProjection | backend/internal/services/transactions.go:177-355 | every write of the services, both imports, the bulk delete and the holding writes included, accepted or rejected, keeps stored positions equal to the replay and every ledger not oversold; for a rejected delete, when no later event ties |
| LedgerMachine.EveryRunIsProjected | backend/internal/services/transactions.go:177-355 | ... hence every state of every run of such writes is projected |
| HoldingLaws.StepKeepsStamps | backend/internal/services/holdings.go:216-224 | every write of the services keeps the currency copied onto each event equal to its holding's |
| HoldingLaws.EveryRunIsStamped | backend/internal/services/holdings.go:216-224 | ... hence it is, in every state of every run |
| HoldingLaws.TabShowsTheStoredTotal | backend/internal/services/ledger.go:51-54 | in every state of every run, a holding's total on the dividends tab of its currency is the dividend total stored with it |
| UndoLaws.DeleteUndoesCreate | backend/internal/services/transactions.go:177-327 | deleting what was just created is always accepted and restores ledger and positions exactly |
| UndoLaws.UpdateUndoesUpdate | backend/internal/services/transactions.go:226-285 | updating an event back to what it said is always accepted and restores the book exactly; openings aside |
| UndoLaws.NewHoldingShowsItsInput | backend/internal/services/holdings.go:100-172 | the position stored for a new holding is the one typed: its shares at the typed cost and the profit realized before |
| Snapshots.BucketsFromLines | backend/internal/domain/snapshot.go:127-148 | the accumulating loops give, per currency, the sum of its lines rounded once, with a bucket for each canonical currency |
| Snapshots.SnapshotStore.Upsert | backend/internal/persistence/snapshots.go:45-118 | manual buckets stand, every other bucket and the lines are the incoming ones |
| Snapshots.SnapshotStore.PatchRegions | backend/internal/persistence/snapshots.go:209-230 | marks the patched buckets manual and touches nothing else of an existing row |
| Snapshots.SnapshotStore.DeleteRow | backend/internal/persistence/snapshots.go:232-265 | an unforced delete refuses a row that holds a cron bucket |
| Snapshots.Add | backend/internal/services/history.go:214-256 | rejects future dates, bad regions and existing rows, in that order, and otherwise writes a manual row |
| Snapshots.PatchRegions | backend/internal/services/history.go:258-323 | overrides buckets, recording the audit anchor on the first override only |
| RowFigures.AddedRowShowsTheTyped | backend/internal/services/history.go:236-247 | a row added by hand holds the typed amounts as manual buckets without anchors, and nothing else |
| RowFigures.PatchedRowShowsTheTyped | backend/internal/services/history.go:283-291 | an override shows the typed amounts; lines and all other buckets stay |
| RowMachine.ManualMovesOnlyByPatch | backend/internal/persistence/snapshots.go:63-100 | over any run, a manual bucket's amounts change only by a patch of that bucket |
| RowMachine.AnchorIsTheFirstOverridden | backend/internal/services/history.go:307-323 | over any run, a manual bucket's anchor is the cron value just before its first override and has not moved since |
| RowMachine.PatchesCompose | backend/internal/services/history.go:283-323 | two patches are one patch: the last typed amounts stand, and each anchor is the one the first override set |
| RowMachine.CronRunsConverge | backend/internal/persistence/snapshots.go:34-118 | any number of cron re-runs leaves the row the last one alone would have left |
| RowMachine.CronBucketKeepsItsRow | backend/internal/persistence/snapshots.go:232-265 | a canonical cron bucket keeps its row and stays a cron bucket until it is patched |
| Heal.RecomputeFrom | backend/internal/services/snapshot_recompute.go:56-129 | heals every line-backed row from the given day to today and leaves all others as they are |
| RowFigures.HealedRowShowsTheLedger | backend/internal/services/snapshot_recompute.go:94-196 | the row healed, read off ledger and stored row: the tracked holdings with shares at the end of the day or a stored close, in order, where the ledger put them that day, at the stored close or else at cost; overridden buckets stand, the others are the exact sums; a row without lines is left alone |
| Heal.BuildLines | backend/internal/services/snapshot_recompute.go:131-196 | the loop with its maps of closes and ledgers gives the as-of lines of the listed holdings |
| Heal.BuildSnapshot | backend/internal/services/snapshot.go:82-238 | today's row: quoted or carried prices, one line per tracked holding, buckets summed from the lines |
| RowFigures.BuiltRowShowsTheMarket | backend/internal/services/snapshot.go:94-228 | the row built, read off stored positions, quotes and carried lines: one line for each tracked holding in listing order, at the close and price day last carried for its symbol, else at a positive quote of the day, else worth nothing; cost and worth to the cent; each bucket the exact sum of its lines |
| RowFigures.BelongsToItsCurrency | backend/internal/services/snapshot.go:72-80 | a holding belongs to the bucket its currency spells in any case, blank meaning rupees, and to none otherwise |
| HistoryLaws.HealTwiceIsHealOnce | backend/internal/services/snapshot_recompute.go:94-196 | healing twice is healing once if and only if the row stores no lines or holdings sharing an unpriced symbol agree |
| HistoryLaws.HealIsIdempotent | backend/internal/services/snapshot_recompute.go:94-196 | with distinct symbols healing is idempotent, and rows without lines stay untouched |
| HistoryLaws.HealAfterBuildIsIdentityIff | backend/internal/services/snapshot.go:94-192 | healing a row just built, for any day, changes nothing if and only if every tracked holding stood at the end of that day where it is stored now |
| HealReach.HealAfter | backend/internal/services/transactions.go:57-110 | a write heals from the earliest day of its non-dividend events, and only past days |
| EmptyOpenings.SameCountingSamePlace | backend/internal/services/snapshot_recompute.go:131-196 | ledgers that agree up to dividends, mergers and openings without shares put a holding at the same shares and average cost |
| HealReach.WritesKeepHistoryHealthy | backend/internal/services/transactions.go:95-110 | healing from there is enough: healthy history stays healthy under any edit without openings that hold shares before their own day |
| HealReach.DividendWritesNeedNoHeal | backend/internal/services/transactions.go:95-110 | dividend-only edits would heal every row to the same values, so skipping the heal is right |
| HealReach.AcceptedCreateKeepsHistoryHealthy | backend/internal/services/transactions.go:177-222 | an accepted create of anything but an opening with shares leaves healthy history healthy after its heal |
| HealReach.CreateHealsIff | backend/internal/services/transactions.go:177-222 | the heal of an accepted create always suffices if and only if it opens no shares |
| UpdateReach.AcceptedUpdateKeepsHistoryHealthy | backend/internal/services/transactions.go:226-285 | an accepted update leaves healthy history healthy after its heal, unless it changes what an opening shows on a day before the heal |
| UpdateReach.UpdateHealsIff | backend/internal/services/transactions.go:226-285 | the heal of a valid update always suffices if and only if neither version is an opening that shows shares before the heal starts, or both show the same shares at the same cost on the same days |
| HealReach.AcceptedDeleteKeepsHistoryHealthy | backend/internal/services/transactions.go:289-327 | an accepted delete whose heal reaches the event leaves healthy history healthy |
| HealReach.DeleteHealsIff | backend/internal/services/transactions.go:289-327 | the heal of an accepted delete always suffices if and only if the event is no opening with shares in effect on a past day before its own |
| HealReach.SharedSymbolHealsTwice | backend/internal/services/snapshot_recompute.go:131-196 | two concrete holdings that share an unpriced symbol at different costs: healing a row again changes it |
| HoldingHistory.OpenKeepsHistoryIff | backend/internal/services/holdings.go:100-172 | opening a holding heals nothing, and past rows stay right if and only if no past row stores its symbol, and it opens no shares or no past row has lines |
| HoldingHistory.DropKeepsHistoryIff | backend/internal/services/holdings.go:268-293 | dropping a holding heals nothing, and past rows stay right if and only if it is untracked or none of them stores its symbol |
| HoldingHistory.EditKeepsHistoryIff | backend/internal/services/holdings.go:176-226 | editing a holding heals nothing, and past rows stay right if and only if lines show it as before, or no past row has a line for it and none would have one for it as edited |
| HoldingHistory.RedateKeepsHistoryIff | backend/internal/services/holdings.go:242-264 | dating an opening heals nothing, and is always right if and only if it holds no shares, or was declared for the same day or for none before today and still is |
| HoldingHistory.RejectedDeleteKeepsPlaces | backend/internal/services/transactions.go:311-323 | a rejected delete without a later tie leaves shares and cost of every holding as they were on every day |
| HoldingHistory.DividendWritesKeepPlaces | backend/internal/services/dividends.go:190-277 | importing or deleting dividends leaves shares and cost of every holding as they were on every day, so neither needs a heal |
| WriteHistory.HarmlessWriteKeepsHistory | backend/internal/services/trade_import.go:434-490 | every ledger write with its own heal, or without one, leaves a healthy past healthy under the conditions above; a trade import also needs new symbols that no past row stores |
| HistoryMachine.TradingDayLags | backend/cmd/snapshot.go:126-137 | in the first two and a half hours of a UTC day a build is for the day before, later for the day itself |
| HistoryMachine.BuiltRowIff | backend/internal/services/snapshot.go:94-192 | a built row, for whatever day, is right if and only if every tracked holding stood at the end of that day where it is stored now; the machine marks it otherwise |
| HistoryMachine.StepKeepsHistory | backend/internal/services/transactions.go:57-110 | ledger and history together: after any write with its heal, build of any day, row edit or passing of a day, positions are projected and every row not marked stale is what healing it now would make of it |
| HistoryMachine.EveryRunKeepsHistory | backend/internal/services/transactions.go:57-110 | ... hence over every run of such steps |
| HistoryMachine.PunctualRunsKeepThePast | backend/cmd/snapshot.go:55-137 | when writes are clean, each day starts with the build of the day before, and builds of past days find the holdings where they stood, no past row is ever wrong but yesterday's between midnight and its build |
| HistoryMachine.TodaysBuyIsMissed | backend/internal/services/transactions.go:79-81 | any buy dated today and written after the day's row was built leaves that row wrong |
| HistoryMachine.TheBuildRepairsIt | backend/cmd/snapshot.go:120-137 | ... and the build after midnight puts it right |
| HistoryMachine.EarlyBuySpoilsTheBuild | backend/cmd/snapshot.go:120-137 | any buy dated today and written before the build of yesterday's row leaves that row wrong |
| Imports.PartitionByKey | backend/internal/services/dividend_import.go:35-52 | the counting-down loop splits the rows, in sheet order, into those stored often enough and the rest |
| Imports.PartitionCounts | backend/internal/services/dividend_import.go:29-52 | per key, n rows against m stored events give max(0, n - m) new and min(n, m) absorbed rows |
| Imports.PartitionIsComplete | backend/internal/services/dividend_import.go:29-52 | no row is lost or listed twice |
| Imports.ImportIsAJoin | backend/internal/services/dividend_import.go:29-52 | after a commit each key is stored max(n, m) times |
| Imports.ReimportAddsNothing | backend/internal/services/dividend_import.go:29-52 | importing the same rows again adds nothing |
| Imports.ImportsCommute | backend/internal/services/dividend_import.go:29-52 | overlapping imports commute, key by key |
| Imports.LookupIsEnough | backend/internal/services/dividend_import.go:54-71 | a narrower lookup splits alike when it agrees on the events that share a key with a row |
| DividendImport.EvaluateRows | backend/internal/services/dividends.go:88-141 | the windowed lookup gives the split the whole ledger would give |
| DividendImport.EventsKeepKeys | backend/internal/services/dividends.go:167-178 | the stored events carry their rows' keys, so the join laws apply to this import |
| DividendImport.ResolveRows | backend/internal/services/dividends.go:88-141 | the loop keeps the eligible rows in order and finds exactly the sheets with an invalid row |
| DividendImport.Import | backend/internal/services/dividends.go:190-243 | malformed exactly for an unknown currency or too many rows, refused exactly on an invalid row; otherwise appends exactly the new rows, cannot oversell, and derives every position |
| SheetLaws.DividendImportJoinsTheSheet | backend/internal/services/dividends.go:88-178 | read off the sheet: accepted exactly when well formed and every row readable; stored events stay; each new event is one row of the sheet, in its order, with its holding, day and cents; and each dividend is stored max(stored before, rows of the sheet) times |
| DividendImport.DeleteAll | backend/internal/services/dividends.go:245-277 | deletes exactly the dividends of the currency and moves no shares, cost or profit; orphans are skipped, and only an oversold ledger without a holding stops it |
| HoldingLaws.DeleteAllTakesOutTheCurrency | backend/internal/services/dividends.go:245-277 | what goes is exactly the dividends in the currency, and the rest stays in order |
| TradeImport.ClassifyRows | backend/internal/services/trade_import.go:256-293 | the loop gives the rows that pass, by day, and says whether a row is invalid; which rows those are, on the sheet's own fields: `SheetLaws` |
| TradeImport.SortByDayIsStable | backend/internal/services/trade_import.go:291-292 | the importable rows are ordered by day, none lost, each day in file order |
| TradeImport.GoodRowsAreImportable | backend/internal/services/trade_import.go:143-159 | what survives is sorted by day, of a known holding, bought or sold, not in the future and after the declared opening; every row classified as good and no other |
| TradeImport.SplitReplacements | backend/internal/services/trade_import.go:300-328 | the windowed lookup gives the split the whole ledger would give |
| TradeImport.EventsKeepKeys | backend/internal/services/trade_import.go:67-87 | the stored events carry their rows' keys, so the join laws apply to this import |
| TradeImport.AnyOverselling | backend/internal/services/trade_import.go:330-358 | the check flags exactly the plans with a sell in a holding whose ledger would oversell |
| TradeImport.CleanPlansCommit | backend/internal/services/trade_import.go:330-396 | a plan without an overselling row passes the recompute of the commit when no sell waits at a split or bonus of the stored ledger |
| TradeImport.CleanImportCommits | backend/internal/services/trade_import.go:434-482 | hence an import into such a book never fails at its commit |
| TradeImport.Import | backend/internal/services/trade_import.go:432-482 | all or nothing, and exactly which: malformed with too many rows, refused on an invalid row, failed when a holding that gains trades is oversold with them, otherwise the new rows are appended and all positions derived |
| SheetLaws.TradeImportJoinsTheSheet | backend/internal/services/trade_import.go:67-87 | read off the sheet: stored events stay; each new event is one importable row, with its holding, type, day and exact quantity, its value to the cent and the holding's currency; they come by day and within a day in sheet order, inserted a millisecond apart; and each trade is stored max(stored before, importable rows) times |
| SheetLaws.TradeImportCounts | backend/internal/services/trade_import.go:461-492 | an accepted import had no invalid row, and reports how many trades it added and how many importable rows were stored already |
| SheetLaws.InvalidTradeRefusesTheSheet | backend/internal/services/trade_import.go:143-159 | one row that is unreadable, of an unknown holding, in the future or of a holding whose opening is undated refuses the whole sheet |
| ImportLimits.ValidImportCanFail | backend/internal/services/trade_import.go:461-482 | a concrete one-row import without invalid rows that fails at its commit |
| InvestmentDelta.InvestedByCurrency | backend/internal/services/investment_delta.go:53-71 | the accumulating loop gives each currency's cost basis at the end of the day |
| InvestmentDelta.DeltaAgreesWithHealedHistory | backend/internal/services/investment_delta.go:16-21 | the chart's figure and the healed cron bucket differ by at most half a cent per holding that owns shares |
| InvestmentDelta.HasActivity | backend/internal/services/investment_delta.go:73-83 | finds exactly the columns with money or a change in some month |
| InvestmentDelta.HiddenColumnsAreBlank | backend/internal/services/investment_delta.go:85-106 | a column is left out exactly when no month of it would show money or a change |
| InvestmentDelta.DeltaColumns | backend/internal/services/investment_delta.go:85-106 | the active columns in chart order, twelve months each, blank after the last figure |
| FigureLaws.ChartShowsTheFigures | backend/internal/services/investment_delta.go:73-106 | the chart lists those of rupees, euros and gold that reach or move by half a cent in some month, in that order; each month that has ended shows its closing amount and its change to the cent |
| InvestmentDelta.DeltasTelescope | backend/internal/services/investment_delta.go:96-102 | the rounded month deltas add up to closing less opening, to half a cent per month |
| InvestmentDelta.YearAgreesWithHealedHistory | backend/internal/services/investment_delta.go:16-21 | ... and to the change between the healed rows of the opening and closing day, to half a cent per month and holding |
| Tallies.KeysPartitionTheTotal | backend/internal/services/dividend_view.go:25-31 | whatever the grouping key, the groups' cents and counts add up to the whole |
| Tallies.WalkedPrefix | backend/internal/services/dividend_history.go:52-63 | a pointer advanced past a day has passed exactly the events up to that day |
| DividendHistory.DividendOverlay | backend/internal/services/dividend_history.go:33-74 | the shared-pointer walk gives every listed day the filtered sums per currency and per stock; own-day money on days listed once |
| FigureLaws.OverlayShowsTheDividends | backend/internal/services/dividend_history.go:33-74 | an overlay day, read off the dividends: per currency, and per currency and symbol, what was received up to it, and per currency what was received on it |
| DividendHistory.OnDayIsRightIff | backend/internal/services/dividend_history.go:46-71 | a listed day's own money is right in every currency if and only if the date is listed once or the day saw none |
| DividendHistory.RepeatedDateLosesItsMoney | backend/internal/services/dividend_history.go:46-71 | one rupee received on a date listed twice is shown on neither |
| DividendHistory.OnDaysAddUpToDate | backend/internal/services/dividend_history.go:10-14 | when every dividend day has a row, the rows' own amounts add up to the running total |
| DividendView.Accumulator.Add | backend/internal/services/dividend_view.go:25-31 | keeps first-seen order, cents and counts of all events added |
| DividendView.BuildDividendView | backend/internal/services/dividend_view.go:41-96 | one pass gives rows, periods, holdings and summary as filters and sums over the events |
| FigureLaws.TabShowsTheDividends | backend/internal/services/dividend_view.go:41-96 | the tab, read off the dividends in order: each row with what had been received by then, in all and from its holding; each year, month and holding with what was received in it, and how often |
| FigureLaws.TabSpansItsDividends | backend/internal/services/dividend_view.go:91-94 | the first and last day of the summary are the extremes of the dividends' days |
| DividendView.SortByTotalIsStable | backend/internal/services/dividend_view.go:88 | the holdings listing is a permutation, largest first, ties in first-seen order |
| DividendView.PeriodsAddUp | backend/internal/services/dividend_view.go:69-73 | by-year and by-month totals and counts add up to the tab's |
| DividendView.PeriodsAscend | backend/internal/services/dividend_view.go:15-16 | periods are listed in ascending order when events arrive chronologically |
| DividendView.HoldingsAddUp | backend/internal/services/dividend_view.go:73-88 | by-holding totals add up to the tab's |
| DividendView.SharesAddUp | backend/internal/services/dividend_view.go:79-82 | the holdings' shares of a positive total make one |
| DividendView.RunningTotalEndsAtTheTotal | backend/internal/services/dividend_view.go:57-69 | the last running total is the tab's total |
| DividendView.HoldingTotalEndsAtTheTotal | backend/internal/services/dividend_view.go:57-69 | a holding's last running total is the holding's total |
| DividendView.TabTotalAgainstReplay | backend/internal/services/ledger.go:51-54 | a holding's tab total and the replay's dividend total differ by its dividends in other currencies: equal exactly when these come to nothing |
| GoldHistory.GoldInvestedOn | backend/internal/services/gold_history.go:63-75 | per day, in any order, what the purchases up to it cost |
| GoldHistory.GoldOverlay | backend/internal/services/gold_history.go:77-123 | the two-pointer walk computes, for every date, the figures filtered from the whole lists, chained in date order |
| FigureLaws.PointShowsTheGold | backend/internal/services/gold_history.go:94-120 | a gold point, read off purchases and prices: the cost so far, the grams at the last price by then, and percentages that lead from the previous value and from the cost to the current value |
| GoldHistory.HistoryOverlay | backend/internal/services/gold_history.go:17-47 | sorting the dates and reading prices only up to the last one gives the same overlay |
| GoldHistory.PointsAreTheInvestedFigures | backend/internal/services/gold_history.go:63-109 | a date has a point exactly when it is listed and can be valued, and its invested figure is goldInvestedOn's |
| GoldHistory.PointIsChained | backend/internal/services/gold_history.go:107-120 | the point of a date is chained to the last valued date before it |
| GoldHistory.VolatilityCompounds | backend/internal/services/gold_history.go:77-80 | compounded, the volatilities lead from the first valued date's value to the last one's |
| Csv.ParseCsv | frontend/src/lib/csv.ts:15-38 | the index loop computes the token function |
| Csv.ParseOfEncoded | frontend/src/lib/csv.ts:11-38 | any mix of quoted and bare fields, and of CRLF, LF and CR, reads back as its fields, an empty record as one empty field; a last line needs no line break unless it is blank; a byte-order mark in front does not count |
| Csv.RoundTripIffNoEmptyRecord | frontend/src/lib/csv.ts:11-38 | parsing an encoding returns the grid if and only if no record is empty and a last line without break is not one empty field |
| Csv.AllQuotedRoundTrip | frontend/src/lib/csv.ts:11-38 | the all-quoted encoding of section 2 of RFC 4180 of any grid with non-empty records reads back as the grid |
| FormNumbers.UngroupedFrom | frontend/src/lib/formNumbers.ts:120-129 | the grouping expression only inserts commas: removing them gives the digits back |
| FormNumbers.GroupedShape | frontend/src/lib/formNumbers.ts:26-33 | what is rendered is a valid grouping in the parser's sense, of exactly the digits given |
| FormNumbers.ParsedOfRendered | frontend/src/lib/formNumbers.ts:35-88 | what every rendering is read as, in both separator modes |
| FormNumbers.NormaliseUndoesGroupingIffUnambiguous | frontend/src/lib/formNumbers.ts:35-88 | normalising undoes grouping for every signed decimal exactly when the rendering is not ambiguous, and otherwise gives the named other number |
| NumberReadings.NormalisedIsReading | frontend/src/lib/formNumbers.ts:8-88 | every text, in every mode, by its groups of digits: nothing is zero; a sign where allowed and a numeral are the number the numeral stands for (one separator, one kind of separator that groups by threes or pairs, or a grouping and the last separator as decimal mark); nothing else is a number |
| NumberReadings.SpacesDoNotCount | frontend/src/lib/formNumbers.ts:36 | white space and underscores anywhere change nothing |
| NumberReadings.EuropeanAmount | frontend/src/lib/formNumbers.ts:51-87 | an amount grouped by dots with a decimal comma reads as its digits with a decimal point, in both modes |
| NumberReadings.SpacesAroundDoNotCount | frontend/src/lib/formNumbers.ts:120-122 | white space around a number does not change its rendering |
| NumberReadings.GroupingIsIndian | frontend/src/lib/formNumbers.ts:120-129 | the integer part is rendered as one or two digits, pairs, and a last three, of exactly the digits given |

## Left out

- Floating-point error, NaN and infinities: money and shares are exact; rounding is half away from zero.
- Store failures and two requests racing on one holding: operations are sequential and store calls succeed.
- HTTP, sessions, logging, configuration, and the database queries themselves: rows are in-memory sequences and maps.
- Price fetching and foreign exchange: quotes are a parameter of the snapshot build; so are the lines carried over a weekend, which the source reads from the latest earlier row.
- xirr: its fractional powers have no exact model.
- Name and symbol suggestion, alias confirmation and preview counts of the imports: which row names which holding is a parameter.
- WritePath.EditHolding: exchange, type and notes of a holding are not represented; a request that also sets the opening date is the edit followed by `SetOpeningDate`.
- LedgerMachine.EveryRunIsProjected: runs do not reject the delete of an event with which a later one of its holding ties; `UndoLaws.RejectedDeleteCanBreakTheProjection` shows what such a step does. New identifiers are new, and imports name known holdings.
- HistoryMachine.EveryRunKeepsHistory: the marks are an upper bound: a marked row may be right all the same, as when a write that is not clean moves no line of it. After a write that leaves two holdings with one symbol every row with lines is marked.
- SplitAdjustment.FoldingPreservesIffNothingWaits: the converse asks for an accepted ledger whose other splits fall on days without sells; preservation holds without that. In both the split may tie only with later input.
- BuySafety.AddingABuyIsSafe: for a buy anywhere in the ledger the condition is sufficient only; the exact one is proved for a buy directly in front of the rescale (`BuysInFrontAreSafeIff`). A buy earlier on the day also changes which of the later sells wait.
- TradeImport.Import: the check and the commit read one clock and one ledger; the source reads each again inside its transaction.
- InvestmentDelta.YearAgreesWithHealedHistory: the calendar of month ends is not modelled; the days read are a parameter.
- DividendView.BuildDividendView: years and months are arbitrary functions of the day, so the result holds for any calendar; labels of holdings are not carried.
- DividendHistory.DividendOverlay: dates are days; malformed date strings, which the source skips, are not represented.
- FormNumbers.NormaliseUndoesGroupingIffUnambiguous: white space and letters are those of ASCII plus the no-break space and the byte-order mark; Number() itself and the input sanitiser are left out.
- Csv.ParseCsv: the delimiter is a parameter; sniffDelimiter is left out.
- History paste, the folding of legacy USD buckets and row listing: each follows the add and patch operations that are modelled.
- Accounts, roles, branding, migrations and all React components: no property beyond single branches.
