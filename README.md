# Casino core in Dafny

This project models the core of a small browser casino in Dafny. Players sign up, receive 1000 credits and play three games. Each game stakes its bet through a shared ledger, and a history page lists the ledger's rows.

- **Balance store** (`auth.dfy`, module `Auth`). The class `BalanceStore` models the browser storage. Each user's balance sits under the key `balance_<id>`. A missing key reads as 1000. Sign-up writes 1000. Sign-in writes 1000 only when no balance is stored. The provider's sign-up and sign-in answers are inputs.
- **Ledger** (`transactions.dfy`, module `Transactions`). The class `Ledger` holds the transactions table and the balance store.
  - A bet is refused when the stored balance is below it.
  - Otherwise a row is inserted, carrying the balance before and after, and only then is the stored balance updated.
  - The insert's outcome is an input.
  - The invariant `Ledger.Valid` says that each user's rows chain from the user's opening balance to the current stored balance. From it, `BalanceIsOpeningPlusNet` proves that, while only the ledger writes the store, the stored balance equals the opening balance plus the `netProfit` that `getUserStats` reports.
  - `getUserTransactions` and `getUserStats` are functions of the table.
- **History page** (`history.dfy`, module `History`). The type filter keeps exactly the rows of the chosen type, in order. The counts on the filter buttons add up. Game names are looked up with a fallback to the raw key.
- **Slot machine** (`slots.dfy`, module `Slots`).
  - The pure payout table: three alike pays 100/50/25/10 times the bet, an adjacent pair pays 2 times, and an outer pair pays nothing.
  - Bet stepping, kept in [10, 100] in steps of 10.
  - The spin, split into the bet (`Spin`) and the timeout (`FinishSpin`). The timeout credits the balance and bet captured when the spin started, as the source's closure does.
- **Memory game** (`memory.dfy`, module `Memory`).
  - A 16-card board: each of 8 symbols on two cards, ids equal to positions.
  - The click handler. A second click schedules a timer, which holds the board as it was before that click, as the source's closure does.
  - Firing a timer, which marks the pair matched or turns it down.
  - The win check, which pays `max(60 - 5 * moves, 20)`.
  - `Playable` is the class invariant: at most two cards turned up, matched cards in same-symbol pairs, every pending timer well-formed.
- **Video poker** (`poker.dfy`, module `Poker`).
  - The 52-card deck and the hold toggle.
  - The draw loop, which skips deck cards already in the hand.
  - The hand evaluator, specified by the ghost function `Classify` over counts, flush, straight and the pair value.
  - The payout.
  - The evaluator's straight test also accepts sorted values starting A, 10 and ending K. The model keeps that behaviour: `AceTensKingIsStraight` proves that A, 10, 10, 10, K with mixed suits is classified as a straight (4x), not three of a kind.
- `sorting.dfy` (module `Sorting`) specifies the numeric sorts the evaluator uses. `wrappers.dfy` holds `Option`.

Randomness enters as inputs: the shuffled deck, the shuffled symbol list and the final reels. The model admits any permutation of the deck or symbols, and any reels.

## Model

| member | source | states |
|---|---|---|
| Sorting.Sort | components/poker-game.tsx:81-85 | the numeric sort returns a permutation of its input, of the same length, ordered ascending or descending |
| Auth.BalanceKey | lib/auth.ts:115 | the key is `balance_` followed by exactly the user id |
| Auth.BalanceKeyInjective | lib/auth.ts:115 | two users share a balance key if and only if they are the same user |
| Auth.WriteThenRead | lib/auth.ts:114-123 | after writing b for user u, reading u gives b and reading any other user gives what it gave before |
| Auth.BalanceStore.GetUserBalance | lib/auth.ts:114-118 | a stored balance is returned as stored; a user without one reads 1000 |
| Auth.BalanceStore.UpdateUserBalance | lib/auth.ts:120-129 | reports success, overwrites only that user's key, the user then reads the new balance and every other user reads what they read before |
| Auth.BalanceStore.RegisterUser | lib/auth.ts:14-58 | succeeds exactly when the provider signs the user up; the already-registered and other error messages; on success the balance is set to 1000 and the session user carries the provider's id and the provider's e-mail, or the typed one when the provider's is empty; on failure storage is untouched |
| Auth.BalanceStore.LoginUser | lib/auth.ts:60-96 | succeeds exactly when the provider signs the user in; the session user carries the provider's id and e-mail, falling back to the typed e-mail; writes 1000 only when no balance is stored, so no user's readable balance changes |
| Transactions.ForUser | lib/transactions.ts:130-135 | the selected rows all belong to the user and come from the table; every row of the user is selected as often as it occurs; they keep the table's order (a subsequence of it) |
| Transactions.NewestFirst | lib/transactions.ts:134-135 | min(limit, n) of the n rows, the i-th being the i-th newest |
| Transactions.ChainedNet | lib/transactions.ts:36-47 | rows whose before/after amounts chain from `from` to `to` satisfy to == from + wins − bets |
| Transactions.ReduceCounts | lib/transactions.ts:167-185 | the reduce over the rows yields the number and the sum of bets and of wins |
| Transactions.CountsCover | lib/transactions.ts:167-187 | every row is counted as a bet or a win, and the rows' net is wins minus bets |
| Transactions.GetUserStats | lib/transactions.ts:149-200 | a failed query gives all zeros; otherwise the counts and amounts per type of the user's rows, totals covering all rows, and netProfit = win amount − bet amount |
| Transactions.StatsOfNoRows | lib/transactions.ts:178-187 | a user with no rows gets all-zero statistics |
| Transactions.GetUserTransactions | lib/transactions.ts:125-147 | a failed query gives no rows; otherwise min(limit, n) of the user's n rows, newest first |
| Transactions.Ledger.Record | lib/transactions.ts:38-61 | the insert appends the row and the balance update stores its after-amount, keeping the chaining invariant |
| Transactions.Ledger.CreateBetTransaction | lib/transactions.ts:21-75 | succeeds exactly when the stored balance covers the bet and the insert succeeds; insufficient-balance and insert-error messages with nothing written; on success the row (before, before − bet) is appended, the store is lowered by the bet and stays non-negative, and the invariant holds |
| Transactions.Ledger.CreateWinTransaction | lib/transactions.ts:77-123 | succeeds exactly when the insert succeeds; on failure nothing is written; on success the row (before, before + win) is appended and the store is raised by the win |
| Transactions.BalanceIsOpeningPlusNet | lib/transactions.ts:27-61 | under the ledger invariant, each user's stored balance equals the opening balance plus the net of their rows, which is getUserStats' netProfit |
| Transactions.NewUserBalance | lib/auth.ts:114-118 | a user with no balance stored when the ledger began has 1000 + wins − bets |
| History.FilterAllIsIdentity | components/transaction-history.tsx:50-53 | the "all" filter keeps every row in order |
| History.FilterKeepsType | components/transaction-history.tsx:50-53 | a type filter keeps only rows of that type |
| History.FilterKeepsAllOfType | components/transaction-history.tsx:50-53 | a type filter keeps every row of that type, as often as it occurs |
| History.FilterKeepsOrder | components/transaction-history.tsx:50-53 | the filtered rows are a subsequence of the rows, so their order is kept |
| History.TypeCountsAddUp | components/transaction-history.tsx:161-183 | the bet count and the win count on the filter buttons add up to the total |
| History.GetGameName | components/transaction-history.tsx:66-73 | slots, memory and poker map to their display names; any other key is shown as itself |
| Slots.TripleMultiplier | components/slot-machine.tsx:64-73 | three alike pays 100, 50, 25 or 10 times the bet |
| Slots.PayoutTable | components/slot-machine.tsx:63-76 | three alike pays bet × the symbol's multiplier, an adjacent pair that is not a triple pays 2 × bet, anything else pays 0 |
| Slots.PaysIffAdjacentPair | components/slot-machine.tsx:63-76 | with a positive bet, a spin pays if and only if reel 2 matches reel 1 or reel 3; the payout is never negative |
| Slots.OuterPairPaysNothing | components/slot-machine.tsx:74-76 | matching outer reels with a different middle pays nothing |
| Slots.PayoutExamples | components/slot-machine.tsx:63-76 | three diamonds on 10 pay 1000; cherry-cherry-lemon pays 20; cherry-lemon-cherry pays 0 |
| Slots.SlotMachine.constructor | components/slot-machine.tsx:19-22 | the machine starts with bet 10, reels cherry-lemon-orange, not spinning, last win 0 |
| Slots.SlotMachine.IncreaseBet | components/slot-machine.tsx:93-97 | the bet rises by 10 only when below both the balance and 100, staying a multiple of 10 in [10, 100] |
| Slots.SlotMachine.DecreaseBet | components/slot-machine.tsx:99-103 | the bet falls by 10 only when above 10, staying in range |
| Slots.StepsKeepBetValid | components/slot-machine.tsx:93-103 | any sequence of up and down presses keeps a valid bet valid |
| Slots.SlotMachine.Spin | components/slot-machine.tsx:26-51 | spinning or a bet above the balance does nothing; otherwise the bet is staked through the ledger and, exactly when it succeeds, the machine is spinning, the bet row is recorded and the shown balance drops by the bet; a refused bet leaves everything as it was |
| Slots.SlotMachine.FinishSpin | components/slot-machine.tsx:52-90 | the reels show the final symbols; a positive payout is recorded as a win and the balance becomes the captured balance − bet + win; a zero payout records nothing and sets last win 0; spinning ends |
| Memory.DoubledSymbols | components/memory-game.tsx:47 | the doubled symbol list holds each of the 8 symbols exactly twice |
| Memory.NewBoard | components/memory-game.tsx:47-54 | dealing any shuffle of the doubled list gives 16 face-down, unmatched cards with ids 0..15 and each symbol on two cards |
| Memory.FindCard | components/memory-game.tsx:66 | the search returns the first card with that id, or none when no card has it |
| Memory.FindOnBoard | components/memory-game.tsx:66-67 | on a board whose ids are positions, the card with id i is at index i, and ids off the board are not found |
| Memory.MarkMatchedKeepsPairs | components/memory-game.tsx:80-84 | marking two distinct cards of one symbol as matched keeps matched cards in same-symbol pairs |
| Memory.WinAmountBounds | components/memory-game.tsx:98 | the prize lies between the bet (20) and three times it, never grows with more moves, and equals the bet exactly from 8 moves on |
| Memory.WinAmountExamples | components/memory-game.tsx:98 | 8 moves pay 20, 4 moves pay 40, 0 moves pay 60 |
| Memory.ClickKeepsPlayable | components/memory-game.tsx:63-92 | turning up a face-down unmatched card with fewer than two up, and scheduling the pair's timer, keeps the board playable |
| Memory.SettledCards | components/memory-game.tsx:80-90 | a timer marks its pair matched exactly when their symbols agree, otherwise turns them down, on its captured board, and leaves the other 14 cards as captured |
| Memory.FireKeepsPlayable | components/memory-game.tsx:81-89 | firing any pending timer leaves a playable board with no cards turned up |
| Memory.MemoryGame.constructor | components/memory-game.tsx:25-29 | no cards, none turned up, 0 moves, not started, not won, no timers |
| Memory.MemoryGame.PlaceBet | components/memory-game.tsx:35-45 | the bet is placed exactly when the shown balance covers 20, the stored balance covers it and the insert succeeds; then the row is recorded and the shown balance drops by 20; otherwise nothing changes |
| Memory.MemoryGame.ResetBoard | components/memory-game.tsx:56-60 | the fresh board is installed with nothing turned up, 0 moves, started and not won |
| Memory.MemoryGame.InitializeGame | components/memory-game.tsx:34-61 | when the bet is placed, the dealt board replaces the old one and the counters reset; otherwise nothing changes; pending timers are kept |
| Memory.MemoryGame.HandleCardClick | components/memory-game.tsx:63-92 | clicks before the start, after the win, with two cards up, or on an unknown, face-up or matched card are ignored; otherwise only that card turns up, a second card counts a move and schedules a timer on the board as it was before the click |
| Memory.MemoryGame.FireTimer | components/memory-game.tsx:80-90 | the fired timer is removed, the board becomes its settled board, no card is up, and the win check runs on the result |
| Memory.MemoryGame.CheckWin | components/memory-game.tsx:94-109 | a started, non-empty, all-matched board sets won, pays max(60 − 5·moves, 20) to the shown balance and records the win when the insert succeeds; otherwise nothing changes |
| Poker.CreateDeck | components/poker-game.tsx:35-41 | the nested loops build the deck suit by suit, value by value |
| Poker.FullDeckContents | components/poker-game.tsx:35-41 | the deck has 52 distinct cards, none held, one of every suit and value |
| Poker.ShuffleContents | components/poker-game.tsx:42 | any shuffle of the deck still has 52 distinct cards, none held |
| Poker.Hand.Multiplier | components/poker-game.tsx:90-104 | each hand pays one of 50, 25, 9, 6, 4, 3, 2, 1, 0, and 0 exactly for "Nada" |
| Poker.PayoutTableDecreasing | components/poker-game.tsx:90-104 | the payouts strictly decrease down the evaluator's order of tests |
| Poker.Counts | components/poker-game.tsx:76-81 | the counts are the numbers of cards of each present value, sorted from largest |
| Poker.TopCount | components/poker-game.tsx:81 | the first count is the largest number of cards sharing a value, and some value reaches it |
| Poker.AscendingRanks | components/poker-game.tsx:84-85 | the values sorted ascending are a sorted permutation of the hand's values |
| Poker.FirstPair | components/poker-game.tsx:98 | the pair value is a value held exactly twice with no lower such value, or none when no value is held twice |
| Poker.CountCards | components/poker-game.tsx:76-79 | the value and suit tallies have an entry exactly for each value or suit present, holding its number of cards |
| Poker.CountValues | components/poker-game.tsx:81 | the tallies' values are the present counts |
| Poker.FindPair | components/poker-game.tsx:98 | the key search finds the specified pair value |
| Poker.EvaluateHand | components/poker-game.tsx:72-105 | the evaluation of five cards is `Classify`, the evaluator's chain of tests over counts, flush, straight and pair value |
| Poker.FlushIffOneSuit | components/poker-game.tsx:82 | a flush is exactly five cards of one suit |
| Poker.StraightOfSorted | components/poker-game.tsx:84-88 | values whose ascending arrangement passes the straight test make a straight |
| Poker.RunIsStraight | components/poker-game.tsx:87 | five consecutive values pass the straight test |
| Poker.AceHighBranch | components/poker-game.tsx:88 | sorted values A, 10, …, K pass the special case whatever the middle three are |
| Poker.WheelIsStraight | components/poker-game.tsx:84-88 | A-2-3-4-5 is a straight |
| Poker.BroadwayIsStraight | components/poker-game.tsx:84-88 | A-10-J-Q-K is a straight |
| Poker.AceTensKingIsStraight | components/poker-game.tsx:86-94 | A, 10, 10, 10, K without a flush has three tens, yet is classified as a straight |
| Poker.TopRows | components/poker-game.tsx:90-91 | a hand is a straight flush exactly when it is a flush and a straight, and four of a kind exactly when four cards share a value and it is not a straight flush |
| Poker.ThreeOfAKindRow | components/poker-game.tsx:95 | one value three times, every other value once, and no flush or straight is three of a kind |
| Poker.SinglePairPays | components/poker-game.tsx:97-104 | a hand whose only pair is v, with no flush or straight, has pair value v and pays as a high pair exactly when v is J, Q, K or A |
| Poker.HighPairIsSinglePair | components/poker-game.tsx:97-101 | every high pair is a single pair of J, Q, K or A |
| Poker.NextFresh | components/poker-game.tsx:115-120 | the scan returns the first deck card at or after the index that is not in the hand, having skipped only cards in the hand, or reports the deck exhausted |
| Poker.DrawStep | components/poker-game.tsx:113-121 | one card of the hand is kept when held or when the deck is exhausted, else replaced by the next fresh deck card, and the loop's bookkeeping is maintained |
| Poker.DrawReplacements | components/poker-game.tsx:113-122 | held cards stay; each other card is kept or replaced by a deck card not in the old hand; distinct hand and deck give a distinct hand; a full deck never runs out, so every unheld card is replaced by an unheld card new to the hand |
| Poker.ToggleAt | components/poker-game.tsx:69 | the toggle flips the hold flag at the index and leaves every other card as it was |
| Poker.ToggleTwice | components/poker-game.tsx:67-70 | toggling the same card twice restores the hand |
| Poker.ToggleKeepsCards | components/poker-game.tsx:69 | toggling changes no card's suit or value and keeps the cards distinct |
| Poker.PokerGame.constructor | components/poker-game.tsx:26-33 | no hand, not started |
| Poker.PokerGame.PlaceBet | components/poker-game.tsx:46-56 | a shown balance below 25 does nothing; otherwise the bet is staked and, exactly when it succeeds, recorded with the shown balance lowered by 25 |
| Poker.PokerGame.DealCards | components/poker-game.tsx:59-64 | the hand is the first five cards of the shuffled deck, the game is started, not drawn, last win 0, no result |
| Poker.PokerGame.DealHand | components/poker-game.tsx:45-65 | a shown balance below 25 does nothing; otherwise the bet is staked and, exactly when it succeeds, recorded with the shown balance lowered by 25 and the first five cards of the shuffled deck dealt as a new, undrawn hand; a refused bet changes nothing |
| Poker.PokerGame.ToggleHold | components/poker-game.tsx:67-70 | after the draw the hand is unchanged; before it, the toggled hand |
| Poker.PokerGame.ReplaceCards | components/poker-game.tsx:110-124 | the drawn hand has five distinct cards, keeps the held ones and replaces every other by an unheld card that was not in the hand |
| Poker.PokerGame.PayWin | components/poker-game.tsx:130-139 | a positive multiplier pays 25 × multiplier to the shown balance and records it when the insert succeeds; a zero multiplier changes nothing |
| Poker.PokerGame.Settle | components/poker-game.tsx:125-139 | the hand is marked drawn, the result is its classification and the win follows the payout table |
| Poker.PokerGame.Draw | components/poker-game.tsx:107-140 | without a started, undrawn game nothing happens; otherwise held cards stay, the others are replaced by fresh cards, the result is `Classify` of the new hand, and 25 × its multiplier is added to the shown balance and recorded |

## Left out

- Network failures that throw are not modelled. These are the `catch` branches and their "Error al procesar …" / "Error al iniciar sesión" messages. The database insert's success and the stats/transactions query's failure are inputs instead.
- Transaction `id` and `date` columns are not modelled. Rows are kept in insertion order, and "newest first" is the reverse of that order.
- Stored balances are integers. The string round trip through `toString`/`parseFloat` and fractional amounts are left out.
- Auth.BalanceStore.GetUserBalance: a stored empty string reads as 1000 in the source; the model has no such entry, since it stores integers.
- The session totals (`totalWins`, `totalLosses`) that each game displays are not modelled. Nothing reads them back.
- The reel animation (`setInterval`) and the timeout delays are not modelled. Pending memory timers fire in whatever order `FireTimer` is called, and the slot timeout is `FinishSpin`.
- `Math.random` is not modelled: the shuffles and the final reels are inputs. `sort(() => Math.random() - 0.5)` is modelled as producing any permutation.
- Asynchronous interleaving is not modelled. Each handler runs to completion. Values a callback captured are kept explicitly: the timer's board and the spin's bet and balance.
- Slots.SlotMachine.Spin: `spinning` is raised once, after the bet succeeds, rather than before it and lowered on failure. Nothing observes the flag in between.
- Poker.EvaluateHand: requires five cards. The source only evaluates five-card hands.
- History.GetGameName: keys inherited from JavaScript's object prototype (such as `constructor`) are not modelled. The table lookup is a plain map.
- The order of `Object.keys`/`Object.values` is not modelled. Counts are sorted before use, and the pair value is searched only when exactly one value is paired.
- `alert` messages and rendering are not modelled. The bet response is returned to the caller instead.
- `logoutUser` and `getCurrentSession` are not modelled. They only forward the authentication provider's answer.
- The game selector's effect (components/game-selector.tsx:24-26) is not modelled. It writes the shown balance back to the store whenever that balance changes. In the program, then, the ledger is not the only writer of the store. For example, a slot win whose insert fails still raises the shown balance, and the effect then stores it with no win row. `BalanceIsOpeningPlusNet` and `NewUserBalance` hold only for the store as the ledger alone writes it.
- The rest of the game selector, the landing page and the app shell are not part of this model.
