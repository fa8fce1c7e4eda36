# Blackjack hand tracking and basic-strategy decisions

This project models the core of a blackjack bot's hand tracking and strategy logic, found at the top of
`test-standalone.js`:

- **Hand lifecycle and bet accounting.** `startNewHand` opens a hand. `logAction` records an action and
  adjusts the bet: a double doubles it, a split records a split bet and doubles it, and a double after a split
  adds one split bet. `finishHand` scores the hand, adds it to the running totals, appends it to a history of
  at most 50 hands, and clears it. The module-level globals (`currentHand`, `runningStats`, `handHistory`) become
  one `Tracking.Session` class whose methods update its fields.
- **Payout.** A split hand is paid sub-hand by sub-hand from what the game reports (bust, two-card 21, dealer
  bust, comparison), and the sub-hand payouts are summed. Any other hand is paid from its result label. The
  game's own payout comes first, then its profit, then 2.5× the bet for a 21 from two starting cards, otherwise 2× the bet.
  Money is exact (`real`), so no float tolerances are needed.
- **Strategy.** The `betMatrix` table (hard 12–20, soft 17–20, keyed by dealer upcard) and `decideFromMatrix`,
  which applies safety guards, then the soft table, then the hard table, then a fallback. There are also the pre-fix and
  post-fix deciders of the unknown-upcard regression test.

Module `Optional` holds the `Option` type. `Strategy` holds the table and deciders. `Payout` holds the win
amount, with the split loop as a method proved against a recursive specification. `Tracking` holds the hand
record, the bet accounting functions and the `Session` class. At the end of `Tracking`, client methods
replay several of the file's test scenarios. They assert the tested totals from the method contracts alone.

The authoritative outcome that the code digs out of the last raw game response (`_lastBJRaw` through
`deepFindBlackjack`) is an explicit `Option<Authoritative>` parameter of `FinishHand`. It carries the payout
and profit, where 0 means absent, as in the code's `||` chains. It also carries the reported sub-hands, which may be
present but empty, each with a value, a card count and action labels, and the dealer value, which defaults to 0. The code keeps
the last response in a global that is never reset between hands. Which outcome a finished hand sees is therefore
the caller's choice here.

test-standalone.js lacks several behaviours that the bot scripts add (see "## Left out"), and the model follows test-standalone.js:
- No hand counter or start-of-hand deduplication window: a second `startNewHand` simply replaces the open hand.
- An authoritative payout of 0 is treated as absent, not as a loss, and the result label is never re-derived from the payout.
- The blackjack bonus checks only the final total and the number of starting cards, not the actions taken
  (`Payout.BlackjackIgnoresLaterActions`).
- No insurance or pair-split recommendation in this table.
- `decideFromMatrix` itself has no unknown-upcard guard. `Strategy.MatrixMatchesBrokenOnHardViews` shows that it
  decides every hard hand exactly as the pre-fix decider does.

## Model

| member | source | states |
|---|---|---|
| `Strategy.BetMatrix` | test-standalone.js:650-694 | the table has a cell exactly for a known upcard with a hard total of 12–20 or a soft total of 17–20; an unknown upcard and every other total find no cell |
| `Strategy.FirstOffered` | test-standalone.js:706 | the last-resort pick is the first offered action, and there is none exactly when nothing is offered |
| `Strategy.DecideFromMatrix` | test-standalone.js:670-707 | the decision is always one of the offered actions, and it is absent exactly when no action is offered |
| `Strategy.DecideFromMatrixBroken` | test-standalone.js:990-1008 | the pre-fix decider always picks an offered action, and picks none exactly when none is offered |
| `Strategy.DecideFromMatrixFixed` | test-standalone.js:1011-1036 | the post-fix decider always picks an offered action, picks none exactly when none is offered, and stands on hard 13–16 against an unknown upcard whenever standing is offered |
| `Strategy.SafetyGuardsStand` | test-standalone.js:673-675 | hard 17+ or soft 19+ stands whenever standing is offered |
| `Strategy.FollowsTableWhenCellOffered` | test-standalone.js:650-702 | a table cell is followed whenever its own action is offered (e.g. with only hit and stand): S stands, H hits, D and DS double |
| `Strategy.DoubleElseStand` | test-standalone.js:684-687 | a DS cell stands when double is not offered but stand is |
| `Strategy.DoubleElseHit` | test-standalone.js:682-689 | a D cell hits when double is not offered but hit is |
| `Strategy.HitsBelowTheTable` | test-standalone.js:689-703 | hard totals under 12 and soft totals under 17 hit whenever hit is offered, so they never double |
| `Strategy.MatrixMatchesBrokenOnHardViews` | test-standalone.js:693-707 | on every hard view `decideFromMatrix` equals the pre-fix decider, unknown upcard included |
| `Strategy.BrokenHitsStiffWithoutUpcard` | test-standalone.js:995-1004 | the pre-fix decider hits hard 13–16 against an unknown upcard whenever hit is offered |
| `Strategy.FixedMatchesBrokenElsewhere` | test-standalone.js:1016-1022 | the fix changes only the unknown-upcard hard 13–16 case where standing is offered |
| `Strategy.PinnedDecisions` | test-standalone.js:713-833 | the decisions the strategy tests pin (hard 17 vs A stands, soft 18 vs 6 doubles, soft 18 vs 9 hits, …) |
| `Strategy.UnknownUpcardRegression` | test-standalone.js:1038-1108 | with [hit, stand] and an unknown upcard, the pre-fix decider hits hard 13 and the fixed one stands on every hard 13–16 |
| `Payout.SplitWinAmount` | test-standalone.js:100-131 | the loop's total is the sum of every sub-hand's payout |
| `Payout.ScoreHand` | test-standalone.js:97-149 | the win amount takes the split branch only for a split hand whose outcome reports player hands; otherwise the non-split rule applies |
| `Payout.SubHandPayout` | test-standalone.js:107-128 | a sub-hand that busted (labelled bust or over 21) returns 0; any sub-hand returns between 0 and twice its stake |
| `Payout.NonSplitWinAmount` | test-standalone.js:132-149 | for a non-negative bet the win amount is never negative, and a win on a positive bet always pays something, whatever the game reports |
| `Payout.WinAmount` | test-standalone.js:93-149 | for non-negative bets the win amount is never negative; a hand not scored as split and not labelled a win returns the bet on a push and 0 otherwise |
| `Payout.SubHandPayoutIsVerdictReturn` | test-standalone.js:107-128 | each sub-hand pays what its bust/two-card-21/dealer-bust/compare verdict returns on its stake (×2 when it doubled): win 2×, push 1×, loss 0 |
| `Payout.SplitPayoutAppend` | test-standalone.js:102-129 | the split total grows by exactly the next sub-hand's verdict return |
| `Payout.SplitPayoutBounds` | test-standalone.js:102-131 | for a non-negative split bet the split total lies between 0 and twice the total staked on the sub-hands |
| `Payout.AllBustPaysNothing` | test-standalone.js:113-114 | if every sub-hand busted (labelled bust or valued over 21), the split hand pays 0 |
| `Payout.DealerBustPaysEveryStandingHand` | test-standalone.js:118-120 | on a dealer bust, every sub-hand that did not bust pays twice its stake |
| `Payout.SplitIgnoresLabelAndPayout` | test-standalone.js:98-131 | a split hand's win amount depends on neither the result label, the final player total, nor the game's payout or profit |
| `Payout.EmptySubHandsPayNothing` | test-standalone.js:98-131 | a split hand whose reported sub-hand list is empty pays 0, even when labelled a win |
| `Payout.LocalPayoutMultiple` | test-standalone.js:132-149 | without authoritative values, a two-card 21 win pays 2.5× the bet, any other win 2×, a push 1×, and any other label 0 |
| `Payout.ProfitIsNetGain` | test-standalone.js:133-136 | when the game reports no positive payout but a positive profit, a win nets exactly that profit |
| `Payout.NoUsableAuthorityPaysLocally` | test-standalone.js:93-149 | when neither the game's payout nor its profit is positive (a reported loss of −1.00 on a hand labelled a win included), the hand is paid by the local rule exactly as if both were absent |
| `Payout.PayoutTakesPrecedenceOnWin` | test-standalone.js:132-149 | a positive authoritative payout is the win amount of a win and is ignored for every other label |
| `Payout.NonWinIgnoresAuthority` | test-standalone.js:93-149 | every label but a win ignores the game's payout and profit, a reported loss with a negative profit included: a push returns the bet, anything else 0 |
| `Payout.BlackjackIgnoresLaterActions` | test-standalone.js:138-140 | a doubled hand reaching 21 from two starting cards is paid 2.5× its doubled bet |
| `Payout.LocalPayoutReturnsStakeExactlyOnWinOrPush` | test-standalone.js:132-149 | for a positive bet, the win amount is at least the bet if and only if the result is a win or push |
| `Payout.PinnedSplitPayouts` | test-standalone.js:341-634 | the split totals the split tests pin (4.00, 0, 2.00, 3.00, 6.00, 8.00, 4.00, 2.00 on a 1.00 split bet) |
| `Tracking.OpenHand` | test-standalone.js:41-57 | a new hand is ongoing, has no actions, a win amount of 0, and the given bet (0.25 when absent or zero) |
| `Tracking.ApplyAction` | test-standalone.js:59-80 | one logged action is appended to the log, the opening fields and result are untouched, the bet accounting invariant is kept and the bet never goes down |
| `Tracking.DoubleDoublesUnsplitBet` | test-standalone.js:61-66 | a double on a hand that was not split doubles the bet |
| `Tracking.SplitRecordsAndDoubles` | test-standalone.js:69-73 | a split marks the hand split, records the old bet as the split bet and doubles the bet |
| `Tracking.DoubleAfterSplitAddsSplitBet` | test-standalone.js:62-63 | after a split, a double adds exactly one split bet and keeps the split bet |
| `Tracking.ReplayKeepsLog` | test-standalone.js:75-80 | every logged action is appended in order; the starting cards and result are untouched |
| `Tracking.ReplayNeverLowersBet` | test-standalone.js:59-73 | for a positive bet the accounting invariant survives any action sequence and the bet never decreases |
| `Tracking.OpenHandSatisfiesInvariant` | test-standalone.js:41-44 | a hand opened with a non-negative or absent bet starts with a positive bet |
| `Tracking.SplitThenDoubles` | test-standalone.js:59-73 | after a split, n doubles leave the bet at (2+n)× the opening bet; e.g. 1.00 → split → double → double is 4.00 |
| `Tracking.DoublesWithoutSplit` | test-standalone.js:61-66 | without a split, n doubles leave the bet at 2^n× the opening bet |
| `Tracking.KeepRecent` | test-standalone.js:166-168 | a history within 50 hands is kept whole; a longer one is cut to exactly 50 |
| `Tracking.KeepRecentIsLatestStretch` | test-standalone.js:166-168 | the capped history is the last min(n, 50) hands, in order |
| `Tracking.KeepRecentEndsWithLatest` | test-standalone.js:155-168 | after appending and capping, the history has at most 50 hands, ends with the finished hand and drops only the oldest |
| `Tracking.Session.constructor` | test-standalone.js:5-15 | no hand in play, empty history, all counters and totals 0 |
| `Tracking.Session.StartNewHand` | test-standalone.js:41-57 | the hand in play is a freshly opened hand, replacing any open one; totals and history are untouched |
| `Tracking.Session.LogAction` | test-standalone.js:59-82 | with a hand in play, the hand's bet and log are updated by one action; with none, nothing changes |
| `Tracking.Session.FinishHand` | test-standalone.js:84-172 | with no hand in play nothing changes, so a repeated finish is a no-op. Otherwise the hand is scored and appended to the capped history; its bet and win are added to the totals; exactly the matching win/loss/push counter (none for other labels) goes up; `totalHands` stays their sum; the slot is cleared |

## Left out

- `deepFindBlackjack` and its untyped search of the raw response (test-standalone.js:17-39) are not modelled: the search depends on property-enumeration order. Its result is the typed `Authoritative` parameter.
- The hand's `startTime` (a wall-clock timestamp) is not modelled.
- Card lists are kept as sequences rather than comma-joined strings. The blackjack test `playerStart.split(',').length === 2` becomes "two starting cards", which assumes no card label contains a comma.
- Dealer upcards are the ten table columns plus "unknown". An upcard string outside those keys (an unnormalised `K`, say) matches no column, just like unknown. But the fixed decider's `!upRank` guard would not fire for it, and that case is not modelled.
- Action labels other than hit, stand, double and split, and the view's `cardsRanks`, which no decider reads, are not modelled.
- Bets that are not numbers (NaN, strings) and the truthiness of those values are not modelled. Only an absent or zero bet falls back to 0.25.
- Floating-point rounding is not modelled: money is exact, so the tests' `assertClose` tolerances have no counterpart.
- The tests expecting a double for hard 9–11 and soft 16 vs 6 (test-standalone.js:830-832, 865-867) are not asserted. The in-file table has no rows there, and `Strategy.HitsBelowTheTable` proves the code hits.
- The test runner, its console output and exit code, and the trivial inline deciders of test-standalone.js:791, 802 and 871 are test scaffolding, not behaviour.
- The RTP percentage is computed inline by one test (test-standalone.js:907), not by the core, so it is not modelled.
- hand-logger.js (DevTools/WebSocket log scraping and file appends) and check-bot.js (log file reading, wall-clock filtering, a live socket check) are I/O around this core and are not part of this model.
- The two browser bot scripts (`NODEZ STAKE WEB BJ 2.0.js`, `Stake Blackjack bot.js`) hold their own extended copies of this logic and are not part of this model. Among the extensions: a 3-second duplicate-start guard in `startNewHand` (NODEZ STAKE WEB BJ 2.0.js:71-83), the result label re-derived from the server payout, with a payout of 0 read as a loss (:334-340), a `LiveValidator` that checks decisions and payouts (:1194-1295), a hand counter (:84), and a `decideFromMatrix` that carries the unknown-upcard guard (:1790-1800), answers the insurance phase before its safety guards (:1802-1805) and looks up a pair-split table before the soft and hard tables (:1812-1821).
