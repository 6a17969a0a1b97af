# Prediction market: model and proofs

A Dafny model of the parts of the prediction-market backend whose correctness is not visible in one
function: the betting ledger, chat history and reactions, and the path from a committed change to
what a live subscriber sees. Each part pairs a state with a log of what happened to it, and the
theorems say that the two agree in every reachable state.

`dafny verify dfyconfig.toml` checks everything.

## How it is organised

| files | what they model |
|---|---|
| `Base`, `Sums`, `Throughout` | identifiers, results, checked machine integers; sums and filters over sequences; what holds in every state of a run |
| `Pricing`, `Bets` | share-of-volume pricing (an in-place array loop on 64-bit integers), payouts, open positions |
| `Ledger` | the tables, and each committed transaction as a function of them; what makes the tables sound |
| `LedgerKeeps`, `LedgerRuns` | each transaction keeps the ledger sound; runs in which the reads and the commit of every request are separate steps |
| `LedgerCalls` | one uninterrupted call, in terms of the tables it reads and writes, and as the steps of a run |
| `LedgerTheorems`, `LedgerOrigins` | what holds in every run: volumes, prices, history, payouts, events, notices; where every bet comes from |
| `LedgerAccounts`, `LedgerPrices`, `LedgerSettlement` | properties overlapping requests can break: exactly when the books balance, prices match volumes and no bet stays open, and runs in which each fails |
| `LedgerScenes` | a small market, and what single requests do to it, for those runs |
| `PgStore`, `MemoryStore` | the two stores as classes, statement by statement, proved against the ledger's transactions |
| `Titles` | market titles and outcome labels |
| `BetViews` | listings of bets joined with names and averages |
| `ChatHistory` | the keyset query, the sort-split-slice page that answers it, and walks over a room |
| `Reactions` | reaction rows, their change log, and tallies |
| `Outbox`, `OutboxProcessor`, `OutboxProgress` | the claim / handle / mark protocol, one processor's loops, and which events a lone processor gets to when handlers fail for a while or for good |
| `Broadcast`, `PriceFeed`, `ReactionFeed` | handlers that re-read and publish, over the ledger's prices and over reaction counts |
| `Join` | subscribing to a feed and replaying its newest page while others post |

Ledger runs interleave any number of placements and resolutions. A placement is admitted, reads the
board and is priced, and commits; a resolution is checked, loads the open bets, and commits. Each of
these is a step of its own, so every commit may rest on what is no longer so. Feeds interleave ledger
steps with outbox processors and subscribers.

## Premises

- **Pricing arithmetic.** `volume * 10 000` and the volume sum are plain 64-bit operations. The array
  code is verified with checked arithmetic for boards where both fit, and a placement whose board
  would not fit ends there (`Pricing.Fits`, `Ledger.PricingFits`).
- What requests of one market can break when they overlap is stated without a premise as an
  if-and-only-if over whole runs, and once more for runs in which they do not overlap:
  - balances (`LedgerAccounts.BooksBalanceThroughoutIff`; `Apart` resolutions),
  - prices against volumes (`LedgerPrices.PricesRightThroughoutIff`; `Unhurried` pricings),
  - open bets on resolved markets (`LedgerSettlement.DecidedThroughoutIff`; placements and
    resolutions that `TakesTurns`),
  - broadcasts against the store (`Broadcast.BroadcastsCurrentThroughoutIff`; handlers that are
    `Alone` between read and publish, which a single processor always is).
- Batches in `Broadcast` are any disjoint sets of pending events, which is what
  `Outbox.ClaimsAreExclusive` proves of claims.
- `OutboxProgress` gives each event a budget: it fails for good, or some number of times before it
  succeeds. Events published meanwhile have larger ids than the event under study.
- The in-memory stores are compared with the ledger's transactions for requests run one at a time.

## Findings

- Backing an outcome never lowers its price. Other outcomes rise by at most one tick, and a rise of
  one tick does happen (`Pricing.OneTickRiseHappens`).
- In every run a won bet is paid its floored quotient, which is at least its stake. Only the entity
  taken by itself can pay less, for a stake that pricing could never hold
  (`Bets.PayoutReturnsStakeIff`, `Bets.PayoutCanFallShort`).
- Two resolutions of one market that overlap pay its winners twice
  (`LedgerAccounts.OverlappingResolutionsPayTwice`).
- A bet priced before and committed after a resolution of its market ends open on a resolved market
  (`LedgerSettlement.StraddlingBetStaysOpen`).
- Two overlapping first bets end with prices that are not those of the volumes
  (`LedgerPrices.OverlappingFirstBetsLag`); one later bet with a current snapshot repairs any board.
- Two handlers that overlap on a key can leave a stale broadcast with nothing pending
  (`Broadcast.OverlappingHandlersCanEndStale`).
- The in-memory forward page drops its anchor by id alone, where the Postgres query compares time
  and id. They agree exactly when a message stored under the anchor's id at the split also has its
  time (`ChatHistory.MisdatedAnchorLosesMessage` is a room where they do not); every cursor the
  application resolves does.
- An event behind 100 or more pending events that fail for good is never tried, because each pass
  takes the oldest 100 pending events again. With fewer, an event that fails finitely often is
  delivered by any number of passes above the tries the others ahead of it need plus its own
  failures (`OutboxProgress.DeliveredByRoundsIff`).
- The in-memory store overwrites outcome and market rows where Postgres adds to them, and balances
  saturate; the two agree exactly when the copies were current and nothing saturates.

## Model

| member | source | states |
|---|---|---|
| Pricing.RecalculatePrices | crates/domain/src/services/pricing.rs:17-55 | the in-place loop leaves exactly the specified board: shares plus remainder, no volume changed, no overflow or bad index within the 64-bit bound |
| Pricing.TotalVolume | crates/domain/src/services/pricing.rs:23 | the volume sum, without overflow on the way |
| Pricing.DistributeRemainder | crates/domain/src/services/pricing.rs:38-47 | one unit goes to each of the first `remainder` shares, and the loop never leaves the array |
| Pricing.FromTenThousandths | crates/domain/src/value_objects/market/price.rs:32-40 | a price is accepted exactly in 0..=10 000 |
| Pricing.RemainderInRange | crates/domain/src/services/pricing.rs:38-41 | floor shares miss the whole by 0 up to less than one unit per outcome, with and without volume |
| Pricing.PricesSumToScale | crates/domain/src/services/pricing.rs:11-16 | for any non-negative volumes prices lie in 0..=10 000 and sum to exactly 10 000 |
| Pricing.NoVolumeSplitsEvenly | crates/domain/src/services/pricing.rs:28-47 | without volume outcome i of n is priced at 10 000 / n, and one unit more if i is below the remainder |
| Pricing.VolumeIsPricedByShare | crates/domain/src/services/pricing.rs:28-47 | with volume each price is v * 10 000 / total rounded down, and one unit more for the first few outcomes only |
| Pricing.PriceWithinOneTick | crates/domain/src/services/pricing.rs:28-47 | each price is within one tick of its outcome's exact share |
| Pricing.EvenSharesArePricedExactly | crates/domain/src/services/pricing.rs:28-47 | when the shares divide evenly nothing is moved |
| Pricing.PricesFollowVolume | crates/domain/src/services/pricing.rs:40-47 | an earlier outcome with at least as much volume is never priced below a later one |
| Pricing.FirstStake | crates/domain/src/services/pricing.rs:28-36 | the first stake on an empty board takes the whole price |
| Pricing.StakeNeverLowersChosen | crates/application/src/use_cases/bet/place_bet.rs:93-94 | any stake on any board leaves the backed outcome's price at least as high, remainder included |
| Pricing.StakeRaisesOthersByAtMostOneTick | crates/application/src/use_cases/bet/place_bet.rs:93-94 | any stake raises any other outcome by at most one tick |
| Pricing.OneTickRiseHappens | crates/domain/src/services/pricing.rs:40-47 | a board on which another outcome does rise by one tick |
| Pricing.PricesIgnoreUnit | crates/domain/src/services/pricing.rs:28-47 | multiplying all volumes by one factor changes no price |
| Bets.PayoutReturnsStakeIff | crates/domain/src/entities/bet.rs:170-179 | a payout is positive, and at least the stake exactly when stake times price fits in 64 bits |
| Bets.PayoutCanFallShort | crates/domain/src/entities/bet.rs:170-179 | a stake past that bound whose payout is less than the stake |
| Bets.PayoutIsFlooredQuotient | crates/domain/src/entities/bet.rs:167-179 | below saturation the payout is the largest whole number not above amount * 10 000 / price |
| Bets.SplitStakePaysAtMostWhole | crates/domain/src/entities/bet.rs:170-179 | k bets at one price pay at most what one combined bet would, and less than k units below it |
| Bets.ActivePosition | crates/infrastructure/src/persistence/in_memory/bet_repository.rs:221-256 | the accumulating fold gives the stake-weighted average of the open bets, or nothing |
| Bets.AverageLiesBetweenPricesPaid | crates/infrastructure/src/persistence/postgres/bet_repository.rs:349-358 | a position exists exactly while a bet is open, and its floored average lies between the prices paid |
| Bets.AverageIsWeightedFloor | crates/infrastructure/src/persistence/postgres/bet_repository.rs:349-358 | the average times the open stake is at most what was paid for it and one tick more exceeds that, over the user's active bets on the outcome |
| LedgerKeeps.OpenMarketKeepsSound | crates/application/src/use_cases/market/create_market.rs:51-66 | a new market with at least two outcomes starts priced to the whole, with a first price point each, and disturbs nothing |
| LedgerKeeps.PlaceKeepsSound | crates/infrastructure/src/persistence/postgres/bet_repository.rs:110-222 | a committed placement keeps balances, books, volumes, aggregates, prices and history right, however stale its snapshot |
| LedgerKeeps.SettleKeepsSound | crates/infrastructure/src/persistence/postgres/bet_repository.rs:235-279 | settling any list a resolution may hold, however out of date, keeps the tables sound and changes that market's status and winner only |
| LedgerKeeps.SettleKeepsAccounted | crates/infrastructure/src/persistence/postgres/bet_repository.rs:235-279 | settling the open bets of an unresolved market keeps every balance and every decided bet accounted for |
| LedgerKeeps.SettlePaysEachUserTheirPayouts | crates/infrastructure/src/persistence/postgres/bet_repository.rs:246-265 | the loop raises each balance by exactly that user's payouts in the list, and rewrites no bet the list does not name |
| LedgerKeeps.SettleOrderDoesNotMatter | crates/infrastructure/src/persistence/postgres/bet_repository.rs:246-265 | balances after settling are the same for any order of the list |
| LedgerKeeps.SettleKeepsBooksIff | crates/infrastructure/src/persistence/postgres/bet_repository.rs:246-265 | balanced books stay balanced if and only if no listed bet had been paid in the store before |
| LedgerKeeps.TotalVolumeIsSumOfVolumes | crates/infrastructure/src/persistence/postgres/bet_repository.rs:162-193 | in a sound ledger a market's total volume is the sum of its outcome volumes |
| LedgerRuns.StepKeepsInv | crates/application/src/use_cases/bet/place_bet.rs:43-100 | every read, commit, abort and settlement step keeps the tables sound and every request in flight committable |
| LedgerRuns.RunsKeepInv | crates/infrastructure/src/persistence/postgres/bet_repository.rs:110-279 | the same for every run of overlapping placements and resolutions, two of one market included |
| LedgerAccounts.BooksBalanceThroughoutIff | crates/infrastructure/src/persistence/postgres/bet_repository.rs:246-265 | every balance is the starting balance less all stakes plus all recorded payouts, in every state of a run, if and only if no settlement of the run commits a bet already paid |
| LedgerAccounts.BalancesInEveryRun | crates/infrastructure/src/persistence/postgres/bet_repository.rs:118-134 | in every run a balance is non-negative; when resolutions of a market do not overlap it is what the bets say |
| LedgerCalls.OpenMarketOpens | crates/application/src/use_cases/market/create_market.rs:51-66 | a new market's rows: open, unbet on, an even split of the whole with one price point each, and no other row touched |
| LedgerCalls.BetIsBookedAtItsOutcomesPrice | crates/application/src/use_cases/bet/place_bet.rs:82-91 | a bet is built at the price stored for its own outcome, or one tick if that is nothing |
| LedgerCalls.PlaceBetAnswers | crates/application/src/use_cases/bet/place_bet.rs:43-91 | an uninterrupted placement is refused for the first reason that applies, or books exactly the bet asked for |
| LedgerCalls.PlaceBetIsItsSteps | crates/application/src/use_cases/bet/place_bet.rs:43-100 | an uninterrupted placement is its admission, pricing and commit as steps of a run |
| LedgerCalls.GivenUpLeavesTables | crates/application/src/use_cases/bet/place_bet.rs:43-100 | a request given up on leaves the tables and every other request as they were |
| LedgerCalls.ResolveMarketAnswers | crates/application/src/use_cases/market/resolve_market.rs:25-63 | an uninterrupted resolution is refused for the first reason that applies, or decides every open bet, pays and tells the winners, and changes nothing else |
| LedgerCalls.ResolveMarketIsItsSteps | crates/application/src/use_cases/market/resolve_market.rs:25-63 | an uninterrupted resolution is its check, load and commit as steps of a run |
| LedgerOrigins.EveryBetWasAskedAndPriced | crates/application/src/use_cases/bet/place_bet.rs:43-100 | in every run each bet was asked for on an open market before its deadline, then booked at the price stored for its own outcome at that moment and at least one tick, then committed, under one request with the user, outcome and amount asked for |
| LedgerTheorems.TotalsInEveryRun | crates/infrastructure/src/persistence/postgres/bet_repository.rs:162-193 | in every run volumes, market totals and participant counts are what the bets say |
| LedgerTheorems.PricesInEveryRun | crates/infrastructure/src/persistence/postgres/bet_repository.rs:162-197 | in every run stored prices of each market sum to 10 000 and end each outcome's price history |
| LedgerTheorems.EveryPriceIsRecorded | crates/infrastructure/src/persistence/postgres/bet_repository.rs:195-197 | in every run a committed bet or a new market adds one price point per outcome of its market, with the price stored, and no other step adds any |
| LedgerAccounts.LifecycleInEveryRun | crates/domain/src/entities/bet.rs:170-197 | in every run a payout is recorded exactly on Won bets and none is Refunded; when resolutions of a market do not overlap a decided bet is Won exactly on the resolved outcome |
| LedgerTheorems.WonBetsPayTheirFloor | crates/domain/src/entities/bet.rs:167-179 | in every run a Won bet was paid the largest whole number not above amount * 10 000 / price, and at least its stake |
| LedgerAccounts.SettledStaysSettled | crates/domain/src/entities/market.rs:194-203 | when resolutions of a market do not overlap, settled bets, winners and the terms of bets never change later in the run |
| LedgerAccounts.OverlappingResolutionsPayTwice | crates/application/src/use_cases/market/resolve_market.rs:50-63 | a run of two overlapping resolutions that pays a winner twice, one payout above the books |
| LedgerTheorems.EventsMirrorBook | crates/infrastructure/src/persistence/postgres/bet_repository.rs:209-219 | in every run there is one placed and one price event per committed bet, in commit order, and no other bet or price event |
| LedgerTheorems.BalanceChangesAreToldOnce | crates/infrastructure/src/persistence/postgres/bet_repository.rs:199-276 | in every run a step that changes a user's balance publishes one UserBalanceChanged for that user, and no other step does |
| LedgerPrices.FreshPlacementCorrectsPrices | crates/infrastructure/src/persistence/postgres/bet_repository.rs:162-181 | a placement whose snapshot saw every earlier commit leaves prices equal to the pricing of volumes, whatever they were |
| LedgerPrices.CommitPricesRightIff | crates/infrastructure/src/persistence/postgres/bet_repository.rs:162-181 | a commit leaves its market's prices equal to the pricing of its volumes if and only if its snapshot prices like the stored volumes with its stake |
| LedgerPrices.PricesRightThroughoutIff | crates/application/src/use_cases/bet/place_bet.rs:59-100 | stored prices are the pricing of stored volumes in every state of a run if and only if every accepted commit prices like the volumes stored by then |
| LedgerPrices.OverlappingFirstBetsLag | crates/infrastructure/src/persistence/postgres/bet_repository.rs:162-181 | a run in which two overlapping first bets of any size commit and leave prices that are not the pricing of the volumes |
| LedgerPrices.PricesAreRightInUnhurriedRuns | crates/application/src/use_cases/bet/place_bet.rs:59-100 | when pricings of one market do not overlap, stored prices are the pricing of stored volumes in every state |
| LedgerSettlement.SettleDecidesMarketIff | crates/application/src/use_cases/market/resolve_market.rs:55-63 | settling leaves no open bet on the market if and only if every bet open by then had been loaded |
| LedgerSettlement.PlaceKeepsDecidedIff | crates/infrastructure/src/persistence/postgres/bet_repository.rs:110-222 | a commit leaves no open bet on a resolved market if and only if its market is unresolved at that moment |
| LedgerSettlement.DecidedThroughoutIff | crates/application/src/use_cases/market/resolve_market.rs:50-63 | no bet on a resolved market is open in any state of a run if and only if no bet commits on a resolved market and every resolution commits all that is open by then |
| LedgerSettlement.ResolvedMarketsAreFullySettled | crates/application/src/use_cases/market/resolve_market.rs:50-63 | when neither placements nor other resolutions overlap a resolution of their market, every bet on a resolved market is Won exactly on the winner and Lost otherwise |
| LedgerSettlement.StraddlingBetStaysOpen | crates/application/src/use_cases/market/resolve_market.rs:50-63 | a run in which a bet priced before and committed after a resolution ends open on a resolved market |
| PgStore.Store.Create | crates/infrastructure/src/persistence/postgres/market_repository.rs:206-216 | writes the market, its outcomes and a starting point each, and nothing else |
| PgStore.Store.Place | crates/infrastructure/src/persistence/postgres/bet_repository.rs:110-222 | the statement sequence is the ledger's placement transaction with its three events, or changes nothing and reports why |
| PgStore.Store.Settle | crates/infrastructure/src/persistence/postgres/bet_repository.rs:235-279 | the statement loop, and then one notice per paid user, is the ledger's settlement transaction |
| PgStore.CreateMarket | crates/application/src/use_cases/market/create_market.rs:33-69 | refuses non-admins, fewer than two outcomes, and blank or over-long titles and labels; otherwise stores an open market with its deadline and outcomes that split the whole evenly, and answers with the trimmed texts |
| Titles.ParsesVisibleText | crates/domain/src/value_objects/market/title.rs:13-25 | a text is accepted exactly when its visible stretch is within the limit, and stored as that stretch |
| Titles.BlankIsRefused | crates/domain/src/value_objects/market/outcome_label.rs:13-19 | a text with nothing visible in it is refused |
| Titles.StoredTextParses | crates/infrastructure/src/persistence/postgres/market_repository.rs:44 | a stored title or label is accepted again unchanged when its row is read |
| PgStore.PlaceBet | crates/application/src/use_cases/bet/place_bet.rs:43-109 | refused for the first reason that applies, with nothing changed; otherwise the returned bet is the user's, for the amount asked, at the price stored for its own outcome and at least one tick, and the whole effect is the ledger's placement; the answer's average is the position's |
| PgStore.ResolveMarket | crates/application/src/use_cases/market/resolve_market.rs:25-66 | refused for the first reason that applies; otherwise the market is resolved on the winner, every open bet on it Won with its payout or Lost, each balance raised by its owner's payouts, each winner told once, and nothing else changed |
| PgStore.SettleOpen | crates/application/src/use_cases/market/resolve_market.rs:55-61 | the loop settles each open bet as winner or loser, and fails exactly on a bet already settled |
| MemoryStore.Account.Debit | crates/domain/src/entities/user.rs:168-180 | takes a covered positive amount; otherwise the balance stays and the reason is given |
| MemoryStore.Account.Credit | crates/domain/src/entities/user.rs:183-192 | adds a positive amount, saturating; refuses others |
| MemoryStore.Store.Place | crates/infrastructure/src/persistence/in_memory/bet_repository.rs:86-126 | the in-memory placement's whole effect, with its three events, or none |
| MemoryStore.Store.ApplyBet | crates/infrastructure/src/persistence/in_memory/market_repository.rs:31-55 | overwrites known outcome rows, records the stake and appends the points |
| MemoryStore.Store.SettleBets | crates/infrastructure/src/persistence/in_memory/bet_repository.rs:142-155 | the loop's effect, stopping at the first failed credit without undoing what came before |
| MemoryStore.Store.Settle | crates/infrastructure/src/persistence/in_memory/bet_repository.rs:139-168 | the market's copy, the loop, and after a complete loop one notice per paid user |
| MemoryStore.OverwriteMatchesWriteIff | crates/infrastructure/src/persistence/in_memory/market_repository.rs:48-53 | overwriting rows equals the relative update if and only if the copies' volumes are the stored ones plus the stake |
| MemoryStore.MemoryPlaceAgreesIff | crates/infrastructure/src/persistence/in_memory/bet_repository.rs:86-126 | the in-memory placement equals the ledger's if and only if the snapshot was current and the market's total does not saturate |
| MemoryStore.MemorySettleNeverFails | crates/infrastructure/src/persistence/in_memory/bet_repository.rs:139-168 | settling stored bets in memory never fails part-way, rewrites the transaction's rows, and credits each balance in full or up to the cap |
| MemoryStore.MemorySettleAgreesIff | crates/infrastructure/src/persistence/in_memory/bet_repository.rs:139-168 | the in-memory settlement equals the ledger's if and only if every balance has room for its payouts and the market copy was current |
| BetViews.Enrich | crates/application/src/use_cases/bet.rs:35-103 | one view per bet in order, with the owner's name, the market's title, the outcome's label and the open position's average or the bet's own price; it fails exactly when a bet refers to a missing row, and names one |
| BetViews.ListingsAlwaysJoin | crates/application/src/use_cases/bet.rs:105-109 | in every run of the ledger no stored bet refers to a missing row |
| ChatHistory.PageIsUnique | crates/infrastructure/src/persistence/postgres/chat_message_repository.rs:91-114 | the keyset query determines its page |
| ChatHistory.PageAnswersQuery | crates/infrastructure/src/persistence/in_memory/chat_message_repository.rs:86-124 | sort, split and slice give exactly the query's page for every limit, any Before cursor, and any After cursor that does not misdate a stored message |
| ChatHistory.ForwardPageAnswersQueryIff | crates/infrastructure/src/persistence/in_memory/chat_message_repository.rs:97-108 | for any After anchor and positive limit they agree if and only if a message at the split with the anchor's id has its time |
| ChatHistory.MisdatedAnchorLosesMessage | crates/infrastructure/src/persistence/in_memory/chat_message_repository.rs:97-108 | a one-message room and a misdated anchor: the slice is empty, the query's page is not |
| ChatHistory.PartitionPoint | crates/infrastructure/src/persistence/in_memory/chat_message_repository.rs:100 | binary search finds how many messages lie below the anchor |
| ChatHistory.MessageStore.ListRecent | crates/infrastructure/src/persistence/in_memory/chat_message_repository.rs:80-125 | answers the query for the room; a negative limit yields nothing |
| ChatHistory.MessageStore.Save | crates/infrastructure/src/persistence/in_memory/chat_message_repository.rs:47-57 | appends the message and dispatches its event |
| ChatHistory.ResolvedCursorPagesFromRoom | crates/application/src/use_cases/chat/list_recent.rs:137-167 | a resolved cursor is the position of a message of this room, so its page is the query's page |
| ChatHistory.ResolveCursorReadsWindow | crates/application/src/use_cases/chat/list_recent.rs:137-167 | no ids resolve to no cursor and both to an error; one id resolves to the position of the message of this room that has it, on the side asked for, and to an error if there is none |
| ChatHistory.WindowPagesLieBeside | crates/application/src/use_cases/chat/list_recent.rs:137-167 | the page before a message holds only older messages of its room, the page after it only newer ones |
| ChatHistory.PagesAroundAnchorMakeRoom | crates/domain/src/repositories/chat_message_repository.rs:28-36 | with large limits before, anchor and after make up the room |
| ChatHistory.BeforePageIgnoresNewer | crates/domain/src/repositories/chat_message_repository.rs:31-33 | messages saved at or above the anchor do not change the page before it |
| ChatHistory.BackwardWalkCoversRoom | crates/domain/src/repositories/chat_message_repository.rs:10-36 | paging back by the oldest message held yields the starting room once, in order, for any positive limit and whatever newer messages arrive meanwhile |
| ChatHistory.ForwardWalkCoversRest | crates/domain/src/repositories/chat_message_repository.rs:10-36 | paging forward from any message yields the rest of the room once, in order |
| Reactions.LogReplaysToRows | crates/infrastructure/src/persistence/in_memory/chat_message_repository.rs:127-172 | in every run rows are unique and the change log alone rebuilds them, order included |
| Reactions.ChangesAlternate | crates/infrastructure/src/persistence/in_memory/chat_message_repository.rs:127-172 | in every run changes of one reaction alternate added, removed from added on, and the row exists exactly after an add |
| Reactions.OneChangePerRealMove | crates/infrastructure/src/persistence/postgres/chat_message_repository.rs:211-215 | a call logs one change when it changes the rows and nothing when it does not, and touches no other reaction |
| Reactions.TalliesInEveryRun | crates/infrastructure/src/persistence/in_memory/chat_message_repository.rs:174-202 | in every run tallies list each emoji held on the message once, by its first surviving row, with the number of users holding it and the viewer's flag, and add up to the rows |
| Reactions.OnlyOneCountMoves | crates/infrastructure/src/persistence/in_memory/chat_message_repository.rs:127-172 | a call moves only its own count, by one, exactly when it logs |
| Reactions.ReactionStore.AddReaction | crates/infrastructure/src/persistence/in_memory/chat_message_repository.rs:127-152 | appends row and change, or answers false and does nothing |
| Reactions.ReactionStore.RemoveReaction | crates/infrastructure/src/persistence/in_memory/chat_message_repository.rs:154-172 | removes the row and logs it, or answers false and does nothing |
| Reactions.ReactionStore.TallyUp | crates/infrastructure/src/persistence/in_memory/chat_message_repository.rs:188-199 | the search loop bumps the emoji's tally or starts one at the end |
| Reactions.ReactionStore.ReactionsFor | crates/infrastructure/src/persistence/in_memory/chat_message_repository.rs:174-202 | groups exactly the requested messages that have rows, each with its own tallies |
| Outbox.ClaimTakesOldestFree | crates/infrastructure/src/events/outbox.rs:137-145 | a claim holds pending, unlocked rows only, the oldest ones, and as many as fit in a batch |
| Outbox.RunsKeepInv | crates/infrastructure/src/events/outbox.rs:135-198 | publishing, claiming, handling, committing, crashing and pruning keep the protocol's invariant in every run |
| Outbox.PublishedIsPending | crates/infrastructure/src/events/outbox.rs:30-47 | a newly published event is a pending row with its payload, and disturbs no other row |
| Outbox.CrashFreesBatch | crates/infrastructure/src/events/outbox.rs:50-52 | a crash leaves its batch's events pending as they were, and free to be claimed |
| Outbox.ClaimsAreExclusive | crates/infrastructure/src/events/outbox.rs:50-52 | in every run no event is in two open batches, and a claimed event is still an unchanged pending row |
| Outbox.PublishedEventsAreAccountedFor | crates/infrastructure/src/events/outbox.rs:147-184 | in every run each pass over a published event called every handler registered for its topic, once and in order; the event is a pending row whose every pass had a handler fail, or was delivered in its last pass, with no handler failing, and never again |
| Outbox.PruneDropsIff | crates/infrastructure/src/events/outbox.rs:190-198 | in every run pruning drops a row if and only if a pass that delivered its event was committed more than a day before |
| OutboxProcessor.Processor.HandleEvent | crates/infrastructure/src/events/outbox.rs:149-164 | every handler registered for the topic is called once in order with the payload, also after a failure, and none for a topic without any; delivered means each took it or found it undecodable |
| OutboxProcessor.Processor.HandleBatch | crates/infrastructure/src/events/outbox.rs:147-170 | delivered and failed split the batch by the outcome of its calls |
| OutboxProcessor.Processor.DeliverBatch | crates/infrastructure/src/events/outbox.rs:135-187 | exactly the oldest pending batch changes, the count is the drop in the backlog, and a short count means an empty backlog or a failure |
| OutboxProcessor.Processor.Drain | crates/infrastructure/src/events/outbox.rs:116-130 | for any handler answers it terminates, with the backlog empty or some delivery failed |
| OutboxProcessor.PassLeaves | crates/infrastructure/src/events/outbox.rs:172-185 | a pass leaves its own failures followed by everything behind the batch |
| OutboxProgress.DeliveryIsARun | crates/infrastructure/src/events/outbox.rs:135-187 | one processor's pass is the protocol's claim, handle each, commit |
| OutboxProgress.DeliveryIsAPass | crates/infrastructure/src/events/outbox.rs:135-187 | on the backlog a pass drops the tried events that succeed, costs the others one failure, and leaves what lies behind the batch |
| OutboxProgress.DeliveryPassesUpTo | crates/infrastructure/src/events/outbox.rs:135-187 | the same of the backlog up to an event, whatever becomes of the events behind it |
| OutboxProgress.ReachedWithin | crates/infrastructure/src/events/outbox.rs:116-130 | an event that fails a number of times first is gone after n passes once (n less its failures) times (100 less the permanent failures ahead) exceeds the tries the others ahead need |
| OutboxProgress.NeverReached | crates/infrastructure/src/events/outbox.rs:137-145 | behind 100 permanent failures an event stays pending for good |
| OutboxProgress.EventuallyReachedIff | crates/infrastructure/src/events/outbox.rs:116-187 | an event that fails finitely often is gone after some number of passes if and only if fewer than 100 permanent failures are ahead, and then after any number above the tries the others need plus its own failures |
| OutboxProgress.RoundsArePasses | crates/infrastructure/src/events/outbox.rs:116-130 | rounds of the protocol by a lone processor, with publishing, pruning and crashes in between, are that many passes over the backlog up to an event |
| OutboxProgress.DeliveredByRoundsIff | crates/infrastructure/src/events/outbox.rs:116-187 | in any reachable state with no batch open, that many rounds deliver the event if and only if fewer than 100 pending events ahead of it fail for good; with 100 it is pending after any rounds |
| Broadcast.StepKeepsInv | crates/application/src/broadcasters/market.rs:30-57 | write, claim, read, publish, failure, commit, crash and join steps keep broadcasts and clients in step with the store |
| Broadcast.LastBroadcastIsCurrent | crates/application/src/broadcasters/market.rs:12-17 | when handlers do not overlap on a key, its last broadcast is the stored value or an event is still to be delivered |
| Broadcast.PublishLeavesKeyOkIff | crates/application/src/broadcasters/market.rs:30-57 | however handlers overlap, a successful publish leaves its key current or owed if and only if the value read is still stored or another event for the key is owed |
| Broadcast.BroadcastsCurrentThroughoutIff | crates/application/src/broadcasters/market.rs:12-17 | every written key is current or owed in every state of a run if and only if every successful publish of the run meets that condition |
| Broadcast.SingleProcessorKeepsBroadcastsCurrent | crates/application/src/broadcasters/market.rs:12-17 | with one processor that holds in every state, through failures, crashes and redelivery |
| Broadcast.OverlappingHandlersCanEndStale | crates/application/src/broadcasters/market.rs:30-57 | a two-processor run that ends with a stale last broadcast and nothing pending |
| Broadcast.JoinedClientsConverge | crates/api/src/routes/ws/subscribe.rs:147-202 | a client that subscribed and was sent a snapshot shows the stored value once nothing is owed |
| Broadcast.JoiningShowsStored | crates/api/src/routes/ws/subscribe.rs:147-202 | a client that joins is shown the stored value |
| Broadcast.DeliveryCatchesUp | crates/application/src/broadcasters/market.rs:30-57 | delivering a pending event broadcasts its key's stored value, to every client of the key, and takes the event off the backlog |
| Broadcast.FailuresLeaveEventsPending | crates/infrastructure/src/events/outbox.rs:50-52 | a failed handler leaves its event to the same turn and a crash leaves the batch to anyone; neither drops an event |
| PriceFeed.FeedFollowsLedger | crates/infrastructure/src/persistence/postgres/bet_repository.rs:212-221 | however ledger, processors and subscribers interleave, what handlers read is the ledger's own prices, and exactly markets that were bet on have events |
| PriceFeed.LastTicksAreStoredPrices | crates/application/src/broadcasters/market.rs:30-57 | while handlers do not overlap on a market, once it has been bet on a price event is owed or the last ticks are its stored prices |
| PriceFeed.JoinedClientsShowStoredPrices | crates/api/src/routes/ws/subscribe.rs:147-202 | while handlers do not overlap, a joined price client that is owed nothing shows the ledger's prices, bet on or not |
| PriceFeed.DeliveryBroadcastsStoredPrices | crates/application/src/broadcasters/market.rs:30-57 | delivering a pending price event broadcasts the ledger's prices of its market, and every client of the market shows them |
| PriceFeed.CommittedBetReachesClients | crates/application/src/broadcasters/market.rs:30-57 | a committed bet's own event, once delivered, shows its market's new prices to every client of the market |
| PriceFeed.SingleProcessorTicksAreStoredPrices | crates/application/src/broadcasters/market.rs:30-57 | the agreement of last ticks and stored prices, with one processor delivering |
| PriceFeed.SingleProcessorClientsShowStoredPrices | crates/api/src/routes/ws/subscribe.rs:147-202 | the same of joined clients, with one processor delivering |
| ReactionFeed.FeedFollowsStore | crates/application/src/broadcasters/chat.rs:125-166 | however calls, processors and subscribers interleave, what handlers read is the store's count, and exactly the pairs ever changed have events |
| ReactionFeed.LastCountIsHolders | crates/application/src/broadcasters/chat.rs:144-158 | while handlers do not overlap on a pair, once it has changed a change is owed or the last count is the number of holders |
| ReactionFeed.JoinedClientsShowHolders | crates/api/src/routes/ws/subscribe.rs:50-91 | while handlers do not overlap, a joined client that is owed nothing shows the number of holders, zero included |
| ReactionFeed.DeliveryBroadcastsHolders | crates/application/src/broadcasters/chat.rs:125-166 | delivering a pending change broadcasts the number of holders, and every client of the pair shows it |
| ReactionFeed.SingleProcessorCountIsHolders | crates/application/src/broadcasters/chat.rs:144-158 | the agreement of last count and holders, with one processor delivering |
| ReactionFeed.SingleProcessorClientsShowHolders | crates/api/src/routes/ws/subscribe.rs:50-91 | the same of joined clients, with one processor delivering |
| Join.ChatHistoryIsNewest | crates/api/src/routes/ws/subscribe.rs:58-77 | the page a chat join replays is the newest 50 of its room |
| Join.BetHistory | crates/api/src/routes/ws/subscribe.rs:112-136 | the reversed listing is the newest 50 bets of the feed, oldest first |
| Join.Reverse | crates/api/src/routes/ws/subscribe.rs:128 | reversing in place mirrors every position |
| Join.JoinLosesNothing | crates/api/src/routes/ws/subscribe.rs:1-8 | in every interleaving a delivered item of the feed is shown, unless a full page of items no older was committed before the read; each is shown once, and nothing else is |
| Join.FramesOnlyGrow | crates/api/src/routes/ws/subscribe.rs:79-91 | what a client has been sent stays as it is, in order, for the rest of any run, and its history is never replaced |
| Join.ReplayFirstCanLose | crates/api/src/routes/ws/subscribe.rs:4-6 | replaying before subscribing can lose an item for good |

## Left out

- User, market and bet values: the source's entities are copied out of a store, changed and written back, so bets, markets and outcomes are values here; only accounts, stores and the processor are objects.
- LedgerRuns.StepKeepsInv: the three reads of a placement's board and user form one step, and a placement whose pricing would leave 64-bit range ends there, where the source would wrap or panic; overflow of a stored column is a failed statement, which is an abort.
- PgStore.PlaceBet: a bet that gets as far as being priced is required to have a board within 64-bit arithmetic, where the source would wrap or panic otherwise.
- PgStore.CreateMarket: descriptions and categories are not modelled; outcome and market ids are supplied fresh.
- MemoryStore.MemoryPlaceAgreesIff: compares single requests, because the in-memory store has no rollback.
- Broadcast.LastBroadcastIsCurrent: a handler's read and publish are separate steps, so agreement is claimed for handlers that do not overlap on a key, and otherwise under the condition of `Broadcast.BroadcastsCurrentThroughoutIff`; no order across keys is claimed.
- Outbox.PublishedEventsAreAccountedFor: delivery is at least once; handler effects of a pass that crashed are not undone, and are not part of the committed passes.
- OutboxProcessor.Processor.Drain: database errors end a pass like a crash in the protocol and are not part of this loop; waking, sweeping and listener reconnects are not modelled.
- Ledger: the order of UserBalanceChanged events among other events is not kept, only how many each user gets; the user cache they evict from is left out, its staleness being bounded only by a time to live.
- Whole-row user saves (avatar, role, demo top-up): they write absolute balances outside the ledger's steps.
- The forwarding task of a subscription copies its stream in order and is part of the broadcast steps.
- Broker lag, dropped sockets, and frames still queued after an unsubscribe.
- Authors and quoted messages of chat pages (list_recent.rs, broadcasters/chat.rs): lookups by id that would add only easy members.
- Per-user statistics and popularity sorting: single folds and sorts that would add only easy members.
- HTTP routing, sessions, passwords, files, configuration, validation of user names and emoji, the demo bots.
- Clocks, id generation and hashing order appear as inputs or as fresh values.
