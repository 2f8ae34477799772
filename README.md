# Financial literacy arcade — a Dafny model of its game core

The repository is a browser arcade of money games. Each game reports the player's result to one shell. The shell keeps a user profile: net worth, credit health, emergency readiness, risk exposure, level, badges and activity. It also keeps a progress-analytics store: game history, subject mastery, resilience scores, spending habits and a "financial IQ". This project models, in Dafny, the rules those games and the shell run on:

- **Debt Escape** (`games.js`). A five-level budgeting simulation. Each month pays income, settles fixed costs (a deficit becomes debt), and may apply a level-3 random event. It then offers a temptation (frugal, balanced or impulse), a level-4 repayment strategy (snowball or avalanche), or the level-5 boss purchase. Month end accrues interest, checks the level's goal, debt ceiling and burnout, and ends in a report: discipline, financial IQ, grade and tips. `DebtEscape` holds the transition functions. `DebtEscapeSession.Game` is the mutable session object, whose methods are proved equal to those functions.
- **Budget Boss and the app shell** (`script.js`). Budget Boss draws daily scenarios without repetition, charges the chosen option, logs the decision, records a mistake when a cheaper option existed for a discretionary category, and ends on bankruptcy or on the last day. The shell's `endGame`/`finishGame` validate and clamp the result. They then update net worth, histories, running accuracy, subject performance, per-game stats, level and badges. Finally they write three analytics log entries. The profile helpers (level, rank title, rename, avatar cycle, badges, lifestyle and resilience metrics) are modelled too.
- **Progress analytics** (`progress-analytics.js`). The store's logging, mastery, resilience blending, spending-habit adjustment and normalisation, the financial IQ, its rank, the accuracy colour and the "time ago" label.
- **Credit Card Swipe** (`credit-game.js`). A 15-card deck, a credit score clamped to 300..850, a popup that blocks swipes, and the gauge, rank and final feedback.
- **Money Memory and Stock Trader** (`more-games.js`). Memory is a pair-matching board: moves are counted on the second card, and the score is `max(0, 100 - 5·(moves - 6))` for its six term pairs. Stock Trader has five stocks on a random walk with sector news. It supports buying and selling at the current price, a max-buy/max-sell helper, a 30-day clock and a profit verdict.
- **Investment Growth** (`investment_clicker_new.js`). Ten years of savings/bonds/stocks returns, scripted market events, a diversification bonus and a final score.

Conventions:
- JavaScript numbers are modelled as exact `int`/`real`. `Math.round(x)` is `JsMath.Round(x) = floor(x + 0.5)`.
- Every `Math.random()` is a parameter `u` in `[0, 1)`. A random index is `floor(u * n)`, which is `JsMath.RandomIndex`.
- A shuffled deck is a parameter, together with the property that makes it a shuffle of the source deck.
- A timer callback is an explicit event method, for example `BossTimerExpired`, `MismatchTimerFired`, `PopupTimerFired` or `IntervalTick`.
- Each class keeps the source object's fields and has a `Snapshot()` of them. Its methods are proved to leave `Snapshot()` equal to a pure transition function of the old snapshot, and the properties are proved about those functions.

## Model

| member | source | states |
|---|---|---|
| Records.FindGame | script.js:43-104 | a found catalogue entry carries the requested game id |
| Records.FindFacts | script.js:43-104 | the lookup succeeds exactly when some catalogue entry has that id, and then returns the first such entry |
| Records.FinishPoints | script.js:473-478 | the points are `pointsPerGame` times the score share clamped to [0, 1], so they lie in 0..pointsPerGame; a full score gives all points and a zero score none; a zero maximum gives NaN only for a zero score |
| Records.ScaledPoints | script.js:475-476 | a rounded share of `pointsPerGame` stays in 0..pointsPerGame and is exact at shares 0 and 1 |
| DebtEscape.Sum | games.js:26-159 | a sum of non-negative fixed costs is non-negative |
| DebtEscape.Temptations | games.js:26-159 | every level's temptation pool is non-empty |
| DebtEscape.LevelAsWritten | games.js:26-159 | the level table as written: each level lasts at least one month, has temptations, non-negative debt and rate, level 3 has events, and no level is flagged as the boss level |
| DebtEscape.Level | games.js:139-157 | the level table used by the model equals the written one except that exactly level 5 is the boss level |
| DebtEscape.CatalogueFigures | games.js:26-159 | fixed costs are 8000, 10500, 17500, 30000 and 15000 and stay below each level's income; only levels 2 (4%) and 4 (5%) charge interest; their initial debts are 8000 and 37000 |
| DebtEscape.Initial | games.js:161-178 | a new game starts at level 1 with no savings, no debt and stress 20, satisfying the invariant |
| DebtEscape.Repay | games.js:227-238 | the repayment is `min(amount, savings, debt)`: when positive, it comes off savings and debt and is added to totalRepaid; otherwise nothing changes; net worth (savings − debt) is kept |
| DebtEscape.Settle | games.js:240-257 | income minus fixed costs goes to savings; a deficit zeroes savings and is added to debt one for one; savings stay ≥ 0 and net worth moves by exactly income − costs; skipping deduction changes nothing |
| DebtEscape.LevelThreeEvent | games.js:264-268 | only on level 3 and with a roll below 0.3, the drawn event's cost is taken from savings, unclamped; otherwise the state is unchanged |
| DebtEscape.Unshown | games.js:391-400 | the unseen temptations are exactly the pool entries whose titles were not shown |
| DebtEscape.DrawTemptation | games.js:391-400 | the drawn temptation is in the pool; while some are unseen it is an unseen one and its title is appended; once all are seen the seen list restarts with it |
| DebtEscape.DrawBossTemptation | games.js:505-508 | the boss item is from the pool and its title is appended; it is unseen whenever one is available |
| DebtEscape.ChoiceButtonsAsWritten | games.js:407-418 | the three buttons as written, where the balanced button already carries the 40% cost |
| DebtEscape.ChoiceButtons | games.js:407-418 | three buttons, frugal, balanced and impulse, each carrying the full temptation cost, so that the discount is applied once, in the choice |
| DebtEscape.BossButtons | games.js:472-542 | the boss offers a single impulse purchase at the item's cost |
| DebtEscape.Render | games.js:326-329 | rendering applies the level-3 event and leaves everything else unchanged; the prompt is the strategy choice exactly on level-4 months 1, 4, 7, …, the boss fight exactly on level 5, and otherwise a temptation from the level's pool |
| DebtEscape.Choose | games.js:544-563 | frugal adds the stress change and counts a resisted luxury; balanced and impulse count a purchase and charge `Round(cost·0.4)` or the cost, from savings when they suffice and otherwise as new debt with +5 stress; stress stays in 0..100; net worth falls by exactly the charge |
| DebtEscape.ApplyStrategyAsWritten | games.js:461-470 | as written, snowball lowers stress by 10 and avalanche lowers debt by 500, both without a floor |
| DebtEscape.ApplyStrategy | games.js:461-470 | snowball lowers stress by 10 and avalanche lowers debt by 500, floored at 0; it keeps stress in range and debt non-negative, and agrees with the written code whenever no floor is hit |
| DebtEscape.AccrueInterest | games.js:602-606 | on an interest level with positive debt, debt grows by `Round(debt·rate)` and totalInterest grows by the same amount; otherwise nothing changes; debt never falls |
| DebtEscape.Conclude | games.js:565-611 | a month counts as survived and savings are kept; on the last month, clearing the level (goal met and no debt, or a won boss fight) advances to month 1 of the next level with that level's initial debt, stress 20 and a fresh seen list, or wins the game on level 5 with debt, stress and seen list unchanged; failing to clear it loses with "objective failed" and changes nothing else; earlier months lose on debt above the ceiling (checked first) or stress 100 with debt, month, stress and seen list unchanged, and otherwise the state is exactly `AccrueInterest` of it (debt and total interest both grow by the rounded interest on an interest level) with the month advanced; the invariant is kept |
| DebtEscape.FinishMonth | games.js:565-611 | after concluding, a continuing game settles and renders the next month and a finished one shows no prompt |
| DebtEscape.StartMonth | games.js:240-257 | starting a month settles and then renders, keeping the invariant |
| DebtEscape.RepayDebt | games.js:227-238 | a repayment that moves nothing changes nothing; otherwise the month is re-rendered after repaying |
| DebtEscape.HandleChoice | games.js:544-563 | a temptation choice is applied and the month is finished |
| DebtEscape.ApplyRepayment | games.js:461-470 | a repayment strategy is applied and the month is finished |
| DebtEscape.Discipline | games.js:614-615 | the discipline ratio is a percentage in 0..100: 100 when nothing was bought, 0 when something was bought and nothing resisted |
| DebtEscape.RoundedShare | games.js:614-615 | a rounded share of a whole is in 0..100, 100 for the whole and 0 for nothing |
| DebtEscape.FinancialIQ | games.js:617-621 | the IQ is 50, plus 30 for a win, plus discipline/5, minus interest/500 (each rounded), clamped to 0..100 |
| DebtEscape.CheckedTips | games.js:630-636 | each of the five checked tips appears exactly when its threshold is crossed: interest > 2000, stress > 80, discipline < 50, debt > 15000, repaid > 10000 |
| DebtEscape.MakeReport | games.js:613-737 | the report carries the discipline, IQ and grade; its tips start with the checked tips, and the generic credit-score tip is appended exactly when fewer than three were checked, giving 1..5 tips |
| DebtEscape.BalancedChargedTwiceAsWritten | games.js:412 | on a 500 temptation, the written balanced button charges 80 instead of the intended 200 |
| DebtEscape.ButtonsChargeOnce | games.js:547 | with the corrected buttons, balanced charges `Round(cost·0.4)`, impulse the full cost, and frugal never touches savings |
| DebtEscape.BossWinIgnoredAsWritten | games.js:576 | with the written level table, a won boss fight does not count towards clearing level 5; only the ordinary goal does |
| DebtEscape.BossTimerLosesAsWritten | games.js:576 | a concrete level-5 state that survives the boss timer is not cleared under the written table but is cleared under the corrected one |
| DebtEscape.BossSurvivalWins | games.js:484-501 | surviving the boss timer on the last month of level 5 wins the game |
| DebtEscape.StrategiesUnflooredAsWritten | games.js:461-469 | from a valid state with stress 5 and debt 300, written snowball gives stress −5 (breaking the invariant) and written avalanche gives debt −200 |
| DebtEscape.LevelThreeEventOverdraws | games.js:264-268 | a level-3 event can take savings of 1000 to −5000 |
| DebtEscape.SavingsNonNegativeOutsideLevelThree | games.js:326-329 | outside level 3, rendering and every choice keep savings non-negative |
| DebtEscape.NetBalanceAccounting | games.js:227-238 | repaying keeps net worth; accrued interest is exactly what is added to totalInterest |
| DebtEscape.DrawKeepsTitlesDistinct | games.js:391-400 | drawing keeps the seen titles free of repeats |
| DebtEscape.UnshownShrinks | games.js:391-400 | marking a title as seen never grows the unseen pool, and shrinks it when that title was unseen |
| DebtEscape.DrawMakesProgress | games.js:391-400 | every draw strictly shrinks the unseen pool, so the draws terminate |
| DebtEscape.GradeMonotone | games.js:623-628 | a higher IQ never gives a lower grade; A+ exactly from 90, F exactly below 50 |
| DebtEscape.FinancialIQFacts | games.js:617-621 | winning never lowers the IQ; a win with no purchases and no interest scores 100 |
| DebtEscapeSession.Game.constructor | games.js:161-178 | a new session holds the initial state |
| DebtEscapeSession.Game.Settle | games.js:240-257 | the session's state becomes `DebtEscape.Settle` of the old state |
| DebtEscapeSession.Game.PickTemptation | games.js:391-400 | returns and records the temptation `DrawTemptation` picks |
| DebtEscapeSession.Game.PickBossTemptation | games.js:505-508 | returns and records the boss item `DrawBossTemptation` picks |
| DebtEscapeSession.Game.Render | games.js:326-329 | the state and prompt are those of `DebtEscape.Render` |
| DebtEscapeSession.Game.RandomEvent | games.js:264-268 | the state becomes `LevelThreeEvent` of the old state, with a month in play |
| DebtEscapeSession.Game.StartMonth | games.js:240-257 | the state and prompt are those of `DebtEscape.StartMonth` |
| DebtEscapeSession.Game.RepayDebt | games.js:227-238 | the state and prompt are those of `DebtEscape.RepayDebt` |
| DebtEscapeSession.Game.FinishMonth | games.js:565-611 | the state and prompt are those of `DebtEscape.FinishMonth` |
| DebtEscapeSession.Game.Conclude | games.js:565-607 | the state becomes `DebtEscape.Conclude` of the old state and stays valid |
| DebtEscapeSession.Game.CloseLevel | games.js:566-593 | at the end of a level the state becomes `DebtEscape.Conclude` of the old state |
| DebtEscapeSession.Game.CloseMonth | games.js:566-608 | before the end of a level the state becomes `DebtEscape.Conclude` of the old state |
| DebtEscapeSession.Game.HandleChoice | games.js:544-563 | the state and prompt are those of `DebtEscape.HandleChoice` |
| DebtEscapeSession.Game.Choose | games.js:544-561 | the state becomes `DebtEscape.Choose` of the old state and stays valid |
| DebtEscapeSession.Game.ApplyRepayment | games.js:461-470 | the state and prompt are those of `DebtEscape.ApplyRepayment` |
| DebtEscapeSession.Game.BossTimerExpired | games.js:484-501 | the timer firing finishes the month as a boss win |
| DebtEscapeSession.Game.Report | games.js:613-637 | the report is `MakeReport` of the final state, with IQ in 0..100 |
| Analytics.InitialState | progress-analytics.js:6-30 | the store starts with empty history and mistake log and with all four spending-habit buckets present |
| Analytics.Accuracy | progress-analytics.js:371 | accuracy is defined exactly when total ≠ 0, lies in 0..100 for a valid count, and is 100 for all correct |
| Analytics.KeepLast | progress-analytics.js:398-406 | keeping the last n entries yields the suffix of length min(n, length) |
| Analytics.Tagged | progress-analytics.js:380-387 | each logged mistake is the reported one, tagged with the game id |
| Analytics.MasteryAfter | progress-analytics.js:447-471 | a known game's category gains one game and the score, correct and question counts; other categories and unknown games are untouched |
| Analytics.MasteryAfterPartial | progress-analytics.js:416-444 | progress adds only the correct and question counts to the category; games played and total score stay |
| Analytics.FullIsPartialPlusGame | progress-analytics.js:416-471 | a full update equals the partial update plus one game and the score |
| Analytics.MasteryCountsGames | progress-analytics.js:447-471 | across all categories, a completion counts one more game for a known game id and progress counts none |
| Analytics.Blend | progress-analytics.js:473-492 | the blend is the rounded mean `(old + new + 1) / 2` and lies between the two |
| Analytics.ResilienceAfter | progress-analytics.js:473-492 | the score capped at 100 is blended into emergency fund and savings consistency for savings/emergency games, into debt management for debt/loan/credit games, and into investment knowledge for investment/stock games |
| Analytics.ResilienceStaysInRange | progress-analytics.js:473-492 | blending keeps all four resilience scores in 0..100 |
| Analytics.RoutingOfSavingsSprint | progress-analytics.js:476 | savings-sprint updates only the emergency and savings scores |
| Analytics.RoutingOfCreditCardSwipe | progress-analytics.js:483 | credit-card-swipe updates only debt management |
| Analytics.RoutingOfInvestmentClicker | progress-analytics.js:488 | investment-clicker updates only investment knowledge |
| Analytics.RoutingOfStockTrader | progress-analytics.js:488 | stock-trader updates only investment knowledge |
| Analytics.RoutingOfBudgetBoss | progress-analytics.js:476-488 | budget-boss updates no resilience score |
| Analytics.RoutingOfMoneyMemory | progress-analytics.js:476-488 | money-memory updates no resilience score |
| Analytics.AdjustOne | progress-analytics.js:498-507 | adjusting for one mistake keeps all four buckets |
| Analytics.AdjustAll | progress-analytics.js:498-507 | adjusting for all mistakes keeps all four buckets |
| Analytics.CountKind | progress-analytics.js:498-507 | a kind occurs at most as often as there are mistakes |
| Analytics.AdjustAllCounts | progress-analytics.js:498-507 | wants rise by 5 per overspending and savings fall by 3 per undersaving; needs and debt repayment are untouched |
| Analytics.Normalize | progress-analytics.js:509-516 | with a positive total, each bucket becomes its rounded percentage share; otherwise nothing changes |
| Analytics.HabitsAfter | progress-analytics.js:495-517 | mistakes adjust the buckets only for a budgeting game, and the result is always normalised |
| Analytics.UntypedMistakesOnlyNormalize | progress-analytics.js:495-517 | mistakes without a type only normalise the habits |
| Analytics.UntypedAdjustNothing | progress-analytics.js:498-507 | mistakes without a type adjust nothing |
| Analytics.ShareInRange | progress-analytics.js:509-516 | every rounded share is in 0..100 |
| Analytics.ExactSharesSum | progress-analytics.js:509-516 | the four unrounded shares add up to exactly 100 |
| Analytics.NormalizedShares | progress-analytics.js:509-516 | after normalising, each bucket is in 0..100 and the buckets add up to 99..102 (rounding) |
| Analytics.AccuracySum | progress-analytics.js:519-535 | the accuracies sum exactly when every game has an accuracy |
| Analytics.AccuracySumBounds | progress-analytics.js:519-535 | with accuracies in range, the sum lies in 0..100·n |
| Analytics.FinancialIQ | progress-analytics.js:519-535 | the IQ is 0 with no history, never above 100, and undefined exactly when a game in the last 20 has no accuracy |
| Analytics.KeepLastAccuracies | progress-analytics.js:519-535 | the last 20 games keep accuracies in range |
| Analytics.MeanInRange | progress-analytics.js:519-535 | a mean of values in 0..100 is in 0..100 |
| Analytics.FinancialIQInRange | progress-analytics.js:519-535 | with accuracies and resilience in range, the IQ is defined and in 0..100 |
| Analytics.IQRankMonotone | progress-analytics.js:537-545 | the rank is 0 below 50, one step per 10 points from 50 up to the top rank, and never falls as IQ rises |
| Analytics.AccuracyColorOf | progress-analytics.js:1063-1068 | success from 90, info in 75..90, danger below 60 |
| Analytics.TimeAgoOf | progress-analytics.js:1070-1083 | "just now" under a minute, then whole minutes under an hour, hours under a day, days under a week, and a date from a week on |
| Analytics.Log | progress-analytics.js:366-414 | logging appends the game (with accuracy and timestamp) and the tagged mistakes, capped at the last 100 games and the last 50 mistakes, and updates mastery, resilience and habits |
| Analytics.LogAppendsOne | progress-analytics.js:377-406 | the history gains this game at the end and keeps the rest of the window; the mistake log grows by the mistakes up to its cap |
| Analytics.EventScore | progress-analytics.js:111 | the event's score is used when given, 0 when there is no total, and otherwise it is missing exactly when correct is missing too |
| Analytics.HandleComplete | progress-analytics.js:90-132 | a completion with a game id, a score, and no log entry of the same game within 2 seconds is logged; anything else changes nothing |
| Analytics.RepeatedCompletionIgnored | progress-analytics.js:95-104 | a completion arriving right after the same game was logged is ignored |
| Analytics.HandleProgress | progress-analytics.js:58-88 | progress updates only partial mastery; history, mistakes and resilience are untouched, and an event without a game id changes nothing |
| Analytics.ProgressAnalytics.constructor | progress-analytics.js:6-30 | the store starts in the initial state |
| Analytics.ProgressAnalytics.UpdateSubjectMastery | progress-analytics.js:447-471 | mastery becomes `MasteryAfter`; the rest is unchanged |
| Analytics.ProgressAnalytics.UpdateSubjectMasteryPartial | progress-analytics.js:416-444 | mastery becomes `MasteryAfterPartial`; the rest is unchanged |
| Analytics.ProgressAnalytics.UpdateResilienceMetrics | progress-analytics.js:473-492 | resilience becomes `ResilienceAfter`; the rest is unchanged |
| Analytics.ProgressAnalytics.UpdateSpendingHabits | progress-analytics.js:495-517 | habits become `HabitsAfter`; the rest is unchanged |
| Analytics.ProgressAnalytics.ShiftForMistakes | progress-analytics.js:498-506 | habits become `AdjustAll` of the old habits over the mistakes; the rest is unchanged |
| Analytics.ProgressAnalytics.NormalizeHabits | progress-analytics.js:508-516 | habits become `Normalize` of the old habits; the rest is unchanged |
| Analytics.ProgressAnalytics.LogGameCompletion | progress-analytics.js:366-414 | the store becomes `Log` of the old store |
| Analytics.ProgressAnalytics.HandleGameComplete | progress-analytics.js:90-132 | the store becomes `HandleComplete`; the result reports whether the event was logged |
| Analytics.ProgressAnalytics.HandleGameProgress | progress-analytics.js:58-88 | the store becomes `HandleProgress` |
| Analytics.ProgressAnalytics.CalculateFinancialIQ | progress-analytics.js:519-535 | returns `FinancialIQ` of the stored history and resilience |
| App.Initial | script.js:2-35 | the profile starts valid at level 1, credit 700 and the first avatar |
| App.FinancialHealth | script.js:2160-2167 | health is the rounded mean of net worth as a percentage of 50,000 (capped at 100), credit as a percentage of 900, emergency readiness and risk exposure, within 0..100 for in-range inputs |
| App.HealthBounds | script.js:2160-2167 | the rounded quarter of four in-range components is in 0..100 |
| App.LevelFor | script.js:2188-2211 | the level is 1 + health/10, clamped to 1..10 |
| App.LevelMonotone | script.js:2188-2211 | more health never gives a lower level |
| App.RankTitle | script.js:2363-2366 | levels 1..10 name the ten titles in order, higher levels are "Financial Deity", and levels below 1 have none |
| App.BadgeOf | script.js:2307-2317 | a badge found by id carries that id |
| App.BadgeIdRoundTrip | script.js:2307-2317 | looking up a badge's id gives that badge back |
| App.UnlockedFacts | script.js:2383-2398 | unlocking keeps the old badges first, adds only earned badges, never repeats one, and adds every earned badge |
| App.UnlockIdempotent | script.js:2383-2398 | unlocking twice is the same as once |
| App.NothingToUnlock | script.js:2383-2398 | when every earned badge is already held, nothing changes |
| App.IndexOfFacts | script.js:2581 | `indexOf` is −1 exactly for a missing value, and otherwise the first position holding it |
| App.NextAvatar | script.js:2579-2586 | the next avatar is always a listed one, the first one when the current is unlisted |
| App.NextIn | script.js:2581-2583 | the cyclic successor in a list is in the list |
| App.CycleNext | script.js:2579-2586 | returns `NextIn` of the list: the entry after `x`, cyclically, or the first when `x` is not listed |
| App.NextOfListed | script.js:2579-2586 | a listed avatar is followed by the next one, cyclically |
| App.TrimStart | script.js:2369-2380 | leading JavaScript white space is removed and only that |
| App.TrimEnd | script.js:2369-2380 | trailing JavaScript white space is removed and only that |
| App.Trim | script.js:2369-2380 | the trimmed name starts and ends with non-space and occurs in the input |
| App.TrimIdempotent | script.js:2369-2380 | trimming twice is trimming once |
| App.Utf16Length | script.js:2369-2380 | the UTF-16 length is at least the character count |
| App.Rename | script.js:2369-2380 | a rename happens exactly for a non-blank trimmed name of at most 20 UTF-16 units, and stores the trimmed name; a dismissed or empty prompt cancels |
| App.DiscretionaryCount | script.js:2488-2493 | at most every recent mistake is discretionary |
| App.LifestylePercent | script.js:2488-2493 | lifestyle spending is 20% plus 15 per discretionary (social or opportunity) mistake, capped at 60: 20 exactly when there are none, 35 for one, 50 for two, 60 from three on |
| App.LifestyleGrowsPerMistake | script.js:2486-2493 | one more social or opportunity mistake raises the lifestyle share by 15 (from 20 to 35 for the first), up to 60; a mistake of any other category leaves it unchanged |
| App.ResilienceScore | script.js:2508-2511 | resilience is emergency readiness minus 5 per mistake, floored at 0 |
| App.ResilienceFallsWithMistakes | script.js:2508-2511 | one more mistake never raises resilience |
| App.ClampedScore | script.js:1806-1807 | the score is clamped into 0..total |
| App.Percentage | script.js:1810 | the percentage is in 0..100 |
| App.RunningAccuracyBounds | script.js:1838-1841 | the running accuracy stays in 0..100, is unchanged by a game at the same accuracy, and equals the first game's percentage |
| App.Recorded | script.js:1821-1849 | net worth grows by 500 per point and both histories gain one point; games played, running accuracy and the category's total/correct are updated; nothing else changes |
| App.StatsAfter | script.js:1852-1862 | budget-boss raises emergency readiness by the points; savings-sprint raises credit by half the points and readiness by 5; credit-card-swipe raises credit by the points; the investing games raise risk by 10; all capped, and other games change nothing |
| App.WithActivity | script.js:1869-1879 | the activity goes first and the list keeps at most 20 entries |
| App.EndGameProfile | script.js:1788-1866 | invalid results change nothing; otherwise the profile is recorded, stats updated, level recomputed, badges unlocked and the activity added, in that order, keeping the profile valid |
| App.EndGameCounts | script.js:1821-1879 | an accepted game counts once, adds its points to net worth, one history point each, and an activity entry, without touching mistakes, name or avatar |
| App.EndGameAnalytics | script.js:1882-2066 | the three analytics writes keep the habit buckets complete |
| App.EndGameLogsThrice | script.js:1882-2077 | an accepted game below the history cap writes three history entries of that game after the old ones, and the completion event dispatched afterwards is ignored as a repeat |
| App.LogBelowCap | progress-analytics.js:377-406 | below the cap, a log appends exactly one entry for the game |
| App.EventIsRepeat | script.js:2068-2077 | after endGame's writes, the same game counts as a repeat |
| App.AppState.constructor | script.js:2-35 | the profile starts at `Initial()` |
| App.AppState.UpdateLevel | script.js:2188-2211 | the level becomes `LevelFor(FinancialHealth)`; the result reports a level rise |
| App.AppState.CheckNewBadges | script.js:2383-2398 | the badges become `Unlocked` of the old profile |
| App.AppState.ChangeAvatar | script.js:2579-2586 | the avatar becomes `NextAvatar` of the old one |
| App.AppState.ChangeName | script.js:2369-2380 | the outcome is `Rename` and the name changes only on a rename |
| App.AppState.Record | script.js:1821-1849 | the profile becomes `Recorded` |
| App.CompletionEventOf | script.js:2068-2077 | the completion event endGame dispatches carries a game id exactly when the current game has one, and its score is the credited points |
| App.AppState.UpdateStats | script.js:1852-1862 | the profile becomes `StatsAfter` |
| App.AppState.EndGame | script.js:1788-2085 | the profile becomes `EndGameProfile`; analytics becomes `EndGameAnalytics` for an accepted game and is untouched otherwise; the dispatched event is not logged again |
| App.AppState.FinishGame | script.js:473-478 | finishGame is endGame with `FinishPoints` |
| BudgetBoss.Config | script.js:940-944 | each level lasts 10..30 days on a positive budget |
| BudgetBoss.FirstCheapest | script.js:1472-1490 | the first option of minimal cost |
| BudgetBoss.OptimalIndex | script.js:1472-1490 | the optimal option costs no more than the chosen one |
| BudgetBoss.MistakeOf | script.js:1493-1506 | a mistake is recorded exactly for a discretionary category when a cheaper option existed; it carries positive points lost, 500 rupees per point, the category and the choice text |
| BudgetBoss.WithMistake | script.js:1493-1506 | the mistake goes first and the list keeps at most 10 |
| BudgetBoss.MistakesAfter | script.js:1493-1506 | the recent-mistake list never exceeds its cap |
| BudgetBoss.MistakesAreDiscretionary | script.js:1493-1506 | only discretionary categories add mistakes, and an opportunity or social mistake raises the lifestyle percentage above 20 |
| BudgetBoss.CheapestIsNoMistake | script.js:1472-1506 | choosing a cheapest option records no mistake |
| BudgetBoss.Available | script.js:1354-1363 | the available indices are exactly the unused ones below n |
| BudgetBoss.SomeLeft | script.js:1354-1363 | while fewer than n were used, some index is available |
| BudgetBoss.Without | script.js:1354-1363 | removing a value leaves the rest, and shrinks a list that held it |
| BudgetBoss.Draw | script.js:1354-1363 | a draw returns an index below n, unused and appended when one is available, and restarts the used list otherwise |
| BudgetBoss.DrawAsWritten | script.js:1360-1363 | the written draw fails exactly when every scenario was used |
| BudgetBoss.ExhaustedDrawFails | script.js:1360-1362 | with one scenario already used, the written draw has nothing to pick while the corrected one restarts |
| BudgetBoss.DrawsAgreeWithinGame | script.js:1354-1363 | while scenarios remain, both draws pick the same index |
| BudgetBoss.Start | script.js:1341-1352 | a game starts on day 1, playing, with the level budget and an empty log |
| BudgetBoss.VictoryPoints | script.js:1572 | a win with money left earns at least 50 points, and at least 150 when no budget was spent |
| BudgetBoss.GameOverPoints | script.js:1723-1724 | a loss earns between 0 and pointsPerGame, in proportion to the days survived |
| BudgetBoss.Decide | script.js:1471-1537 | a decision keeps the game invariant |
| BudgetBoss.NoRepeatsExtended | script.js:1534-1535 | appending an unused scenario keeps the used list free of repeats |
| BudgetBoss.DecideRules | script.js:1471-1537 | the cost is charged and the decision logged; the game is lost exactly when the budget reaches 0 and won exactly on the last day with money left; otherwise the next day draws an unused scenario; a loss reports days survived out of total, and a win at least 50 points out of 100 |
| BudgetBoss.LastDayEndsGame | script.js:1522-1528 | a decision on the last day always ends the game |
| BudgetBoss.Game.constructor | script.js:1341-1352 | the game starts at `Start` |
| BudgetBoss.Game.ShowGameplay | script.js:1354-1363 | the current scenario and used list become those of `Draw` |
| BudgetBoss.Game.MakeDecision | script.js:1471-1537 | the game follows `Decide` and the profile's recent mistakes become `MistakesAfter` |
| BudgetBoss.RecordMistake | script.js:1493-1506 | the profile's recent mistakes become `MistakesAfter` |
| BudgetBoss.FindOptimal | script.js:1472-1490 | the loop returns `OptimalIndex` |
| CreditCard.Abs | credit-game.js:286-294 | the magnitude of the card's impact |
| CreditCard.ScoreChange | credit-game.js:286-294 | a correct answer gains the impact's magnitude and a wrong one loses it |
| CreditCard.ScoreAfter | credit-game.js:297 | the score stays in 300..850, never falls on a correct answer and never rises on a wrong one |
| CreditCard.Reset | credit-game.js:105-111 | a new game holds the shuffled deck at card 0 with score 500 and no popup |
| CreditCard.DealStartsWithCard | credit-game.js:105-111 | a shuffled 15-card deal starts with a card to show |
| CreditCard.Swipe | credit-game.js:276-308 | a swipe scores the current card, moves to the next and opens the popup |
| CreditCard.Trigger | credit-game.js:260-273 | a swipe is ignored while the popup is open or the game has ended |
| CreditCard.Close | credit-game.js:148-151 | closing the popup keeps score and position, and the game ends exactly when the last card was answered |
| CreditCard.SwipeThenBlocked | credit-game.js:260-308 | one swipe advances one card with the score in range, and a second swipe before closing is ignored |
| CreditCard.EndsAfterLastCard | credit-game.js:148-166 | the game ends exactly after the last card's popup closes |
| CreditCard.GaugePercent | credit-game.js:342-355 | the gauge is in 0..100%, empty at 300 and full at 850 |
| CreditCard.RankOf | credit-game.js:356-360 | Legend from 800, Elite 740..799, Pro 670..739, Rookie 580..669, Noob below 580 |
| CreditCard.FeedbackOf | credit-game.js:363-370 | cleared from 750, stage complete 650..749, game over below 650 |
| CreditCard.DisplayMonotone | credit-game.js:342-361 | a higher score never shows a lower rank or gauge |
| CreditCard.RightAnswers | credit-game.js:276-308 | the all-correct answer sheet answers every card correctly |
| CreditCard.WrongAnswers | credit-game.js:276-308 | the all-wrong answer sheet answers every card wrongly |
| CreditCard.TotalImpact | credit-game.js:5-85 | the total impact magnitude is non-negative |
| CreditCard.TotalImpactAppend | credit-game.js:5-85 | total impact adds over concatenation |
| CreditCard.TotalImpactPermutation | credit-game.js:105-111 | shuffling does not change the total impact |
| CreditCard.Run | credit-game.js:260-308 | playing a sequence of answers, each closed, keeps the invariant |
| CreditCard.RunAgreesWithPlay | credit-game.js:260-308 | the session's score after answering every remaining card is the score the answer sheet gives, and the game has ended |
| CreditCard.RightAnswersClimb | credit-game.js:297 | answering a deck correctly from a score that cannot hit 850 adds the total impact |
| CreditCard.WrongAnswersFall | credit-game.js:297 | answering a deck wrongly takes off the total impact, floored at 300 |
| CreditCard.PerfectAndHopelessGames | credit-game.js:5-111 | a perfect game ends at 820 (Legend, cleared) whatever the shuffle, and an all-wrong game at 300 |
| CreditCard.ScenariosTotal | credit-game.js:5-85 | the 15 cards' impacts add up to 320 |
| CreditCard.FirstFiveTotal | credit-game.js:5-34 | the first five cards' impacts add up to 90 |
| CreditCard.MiddleFiveTotal | credit-game.js:35-60 | the middle five cards' impacts add up to 120 |
| CreditCard.LastFiveTotal | credit-game.js:61-85 | the last five cards' impacts add up to 110 |
| CreditCard.DeckLength | credit-game.js:105-111 | a shuffled deck has the 15 cards |
| CreditCard.CreditGame.constructor | credit-game.js:89-111 | the game starts at `Reset` of the shuffled deck |
| CreditCard.CreditGame.RenderCard | credit-game.js:157-166 | the state becomes `Render` |
| CreditCard.CreditGame.TriggerSwipe | credit-game.js:260-273 | the state becomes `Trigger` |
| CreditCard.CreditGame.ProcessSwipe | credit-game.js:276-308 | the state becomes `Swipe` |
| CreditCard.CreditGame.CloseClicked | credit-game.js:148-151 | the state becomes `Close` |
| CreditCard.CreditGame.PopupTimerFired | credit-game.js:331-339 | the timer closes an open popup and otherwise changes nothing |
| MoneyMemory.Pairs | more-games.js:439-443 | the deck has two cards per term |
| MoneyMemory.PairsCount | more-games.js:439-443 | each of the terms appears exactly twice |
| MoneyMemory.PairsBelow | more-games.js:439-443 | every card names a listed term |
| MoneyMemory.ShuffledPairsAreDeck | more-games.js:446 | any permutation of the pairs is a valid board |
| MoneyMemory.Initial | more-games.js:448-453 | the board starts with nothing flipped and no moves |
| MoneyMemory.MemoryScore | more-games.js:756 | the score is non-negative, 100 exactly for a perfect game of 6 moves (one per term), and 0 exactly from 26 moves |
| MoneyMemory.ScoreFallsWithMoves | more-games.js:756 | more moves never score higher |
| MoneyMemory.CheckMatch | more-games.js:730-767 | a pair of the same term is matched and cleared; a mismatch stays face up; the game finishes exactly on the sixth (last) pair, with `MemoryScore` |
| MoneyMemory.Flip | more-games.js:712-728 | a click keeps the board invariant |
| MoneyMemory.Unflip | more-games.js:762-766 | the mismatch timer turns the two cards back over and keeps only matched cards up |
| MoneyMemory.MoveCountedOnSecondCard | more-games.js:724-727 | a move is counted exactly when an accepted click is the second card |
| MoneyMemory.RefusedClickIsIgnored | more-games.js:713-717 | a click with two cards up, or on a flipped or matched card, changes nothing |
| MoneyMemory.PairIffSameTerm | more-games.js:730-767 | the second card makes a match exactly when it shows the same term; a mismatch is turned back over by the timer |
| MoneyMemory.FinishScore | more-games.js:748-758 | the last match finishes with all pairs matched and a score in 0..100 that is 100 exactly for 6 moves |
| MoneyMemory.Positions | more-games.js:439-443 | the set of board positions has one entry per card |
| MoneyMemory.FullSubset | more-games.js:712-717 | a set of positions as large as the board holds every position |
| MoneyMemory.FinishedBoardIgnoresClicks | more-games.js:712-717 | once every card is matched, clicks change nothing |
| MoneyMemory.FinishesOnce | more-games.js:748-758 | after the finishing match, further clicks change nothing, so the game finishes once |
| MoneyMemory.Game.constructor | more-games.js:446-453 | the board starts at `Initial` with the shuffled deck |
| MoneyMemory.Game.FlipCard | more-games.js:712-728 | the board becomes `Flip` of the old one |
| MoneyMemory.Game.CheckPair | more-games.js:730-767 | the board becomes `CheckMatch` of the old one |
| MoneyMemory.Game.MismatchTimerFired | more-games.js:762-766 | the board becomes `Unflip` of the old one |
| StockTrader.ListedCons | more-games.js:846-852 | a symbol is listed exactly when it heads the list or is listed after it |
| StockTrader.DistinctTail | more-games.js:846-852 | the rest of a list with distinct symbols is distinct and does not list its head |
| StockTrader.Initial | more-games.js:854-866 | the market starts on day 1, active, with 1000 cash, no holdings and nothing selected |
| StockTrader.EmptyPortfolioComplete | more-games.js:854-866 | the empty portfolio holds 0 of every symbol |
| StockTrader.FindStock | more-games.js:1329-1332 | a stock is found exactly when its symbol is listed, and it is the listed stock with that symbol |
| StockTrader.ValueIgnoresUnlisted | more-games.js:1251-1256 | holdings of an unlisted symbol add nothing to the portfolio value |
| StockTrader.ValueChange | more-games.js:1251-1256 | changing one holding changes the value by the change times that stock's price |
| StockTrader.Select | more-games.js:1329-1332 | selecting a stock records it and changes nothing else |
| StockTrader.Trade | more-games.js:1387-1415 | a trade keeps the invariant |
| StockTrader.Exchange | more-games.js:1387-1415 | an exchange moves the price of the shares out of cash and the shares into the holding |
| StockTrader.ExchangeKeepsEquity | more-games.js:1387-1415 | an exchange at the current price keeps cash plus portfolio value |
| StockTrader.TradeOutcomes | more-games.js:1387-1415 | a missing or non-positive quantity is rejected; a buy succeeds exactly when cash covers it and a sell exactly when enough shares are held; anything rejected changes nothing |
| StockTrader.TradeEffects | more-games.js:1387-1415 | a buy pays the price and adds the shares; a sell receives the price and removes them |
| StockTrader.TradeKeepsEquity | more-games.js:1387-1415 | trading never changes cash plus portfolio value |
| StockTrader.MaxBuy | more-games.js:1378-1381 | the maximum buy is the largest whole number of shares cash covers |
| StockTrader.MaxBuyIsLargestBuy | more-games.js:1378-1415 | buying the max-buy quantity succeeds when positive, and one share more is refused for insufficient funds |
| StockTrader.MaxSellSellsAll | more-games.js:1383-1415 | selling the max-sell quantity of a held stock succeeds and empties the holding |
| StockTrader.ApplyNews | more-games.js:1222-1226 | news multiplies the prices of its sector's stocks by 1 + impact and leaves others alone |
| StockTrader.Capped | more-games.js:1234-1235 | the price history keeps at most 50 points and ends with the latest price |
| StockTrader.Step | more-games.js:1229-1236 | the new price is the old price times 1 + a uniform move within ± volatility + trend, floored at 1, and is appended to the history |
| StockTrader.TickNews | more-games.js:1209-1220 | news happens exactly on a roll below 0.1 and is one of the five listed items |
| StockTrader.NewsApplied | more-games.js:1222-1226 | news keeps every stock's symbol and history, and multiplies the price of each stock of the news sector by 1 + impact |
| StockTrader.Stepped | more-games.js:1229-1236 | each stock becomes `Step` of its own draw: same symbol, the stepped price (at least 1), and a history of 1 to 50 points ending at it |
| StockTrader.UpdateMarket | more-games.js:1206-1240 | a market update advances the day and keeps cash and holdings; the stocks are the tick's news applied and then each stock stepped by its draw, so every stock keeps its symbol, a price of at least 1, and a history ending at that price |
| StockTrader.UpdatedPrice | more-games.js:1206-1236 | after an update each stock's price is `max(1, p·(1 + (2u−1)·volatility + trend))`, where p is its price after the news and u its draw |
| StockTrader.SameSymbols | more-games.js:1229-1236 | a step that keeps symbols keeps them distinct and keeps the selected symbol listed |
| StockTrader.Ticks | more-games.js:1193-1201 | a sequence of timer ticks keeps the invariant |
| StockTrader.CheckGameEnd | more-games.js:1421-1427 | the game stops once the day passes 30 |
| StockTrader.Tick | more-games.js:1193-1201 | a timer tick keeps the invariant |
| StockTrader.TickAdvancesDay | more-games.js:1193-1201 | an active tick advances one day and stays active exactly while the day was before 30; an inactive tick changes nothing |
| StockTrader.AtMostThirtyUpdates | more-games.js:1193-1427 | after n ticks the day is min(day + n, 31), and the game is still active exactly when day + n ≤ 30 |
| StockTrader.ThirtyUpdatesFromStart | more-games.js:1193-1427 | from a new game, n ticks move the market min(n, 30) times, and the game has stopped exactly when n ≥ 30 |
| StockTrader.VerdictOf | more-games.js:1443-1456 | wizard above 50% profit, great above 20%, steady above 0, crash survivor otherwise |
| StockTrader.NoTradeNoProfit | more-games.js:1431-1456 | a fresh market shows 0% profit and the lowest verdict |
| StockTrader.ZeroHoldingsNoValue | more-games.js:1251-1256 | no holdings are worth nothing |
| StockTrader.Trader.constructor | more-games.js:854-866 | the trader starts at `Initial` |
| StockTrader.Trader.SelectStock | more-games.js:1329-1332 | the state becomes `Select` |
| StockTrader.Trader.SetMaxBuy | more-games.js:1378-1381 | the quantity is the largest number of shares the cash covers |
| StockTrader.Trader.SetMaxSell | more-games.js:1383-1385 | the quantity is the selected holding |
| StockTrader.Trader.ExecuteTrade | more-games.js:1387-1415 | the state and result are those of `Trade` |
| StockTrader.Trader.BuyShares | more-games.js:1393-1403 | a buy of a positive quantity gives the state and result of `Trade` with `Buy` |
| StockTrader.Trader.SellShares | more-games.js:1404-1413 | a sell of a positive quantity gives the state and result of `Trade` with `Sell` |
| StockTrader.Trader.StepStock | more-games.js:1229-1236 | the k-th stock becomes `Step` of itself and its draw; the other stocks, cash, holdings, day, selection and activity are unchanged |
| StockTrader.Trader.MoveMarket | more-games.js:1206-1240 | the market becomes `UpdateMarket` |
| StockTrader.Trader.ApplyNewsInPlace | more-games.js:1222-1226 | the stocks become `NewsApplied` and nothing else changes |
| StockTrader.Trader.StepAll | more-games.js:1229-1236 | the stocks become `Stepped` and nothing else changes |
| StockTrader.Trader.CheckEnd | more-games.js:1421-1427 | the state becomes `CheckGameEnd` |
| StockTrader.Trader.IntervalTick | more-games.js:1193-1201 | the state becomes `Tick` |
| InvestmentGrowth.Position | investment_clicker_new.js:23-48 | each asset has its place among the three |
| InvestmentGrowth.NoHoldingsComplete | investment_clicker_new.js:7-21 | the start portfolio holds 0 of every asset |
| InvestmentGrowth.Initial | investment_clicker_new.js:7-21 | the game starts at year 0 with 1000 cash, undiversified, satisfying the invariant |
| InvestmentGrowth.HoldingsUpdate | investment_clicker_new.js:572-580 | adding to one holding adds the same to the holdings total |
| InvestmentGrowth.Invested | investment_clicker_new.js:670-676 | at most three assets are held, and three exactly when every holding is positive |
| InvestmentGrowth.AllThree | investment_clicker_new.js:670-676 | every holding is positive exactly when savings, bonds and stocks are |
| InvestmentGrowth.CheckDiversification | investment_clicker_new.js:670-676 | the lesson shows exactly when the game was not yet diversified and all three holdings are positive, which sets the flag |
| InvestmentGrowth.Place | investment_clicker_new.js:572-580 | a placement keeps holdings non-negative and the first-investment set equal to the held assets, without touching the year, history or flag |
| InvestmentGrowth.Invest | investment_clicker_new.js:566-597 | placed exactly for a positive amount the cash covers, moving it from cash to the holding with the total conserved; otherwise "not enough cash" exactly when the amount exceeds the cash, and nothing changes; the first-time lesson shows exactly for a new asset; diversification is shown once and never reset |
| InvestmentGrowth.ReturnRate | investment_clicker_new.js:610-626 | every asset's yearly rate is positive |
| InvestmentGrowth.GrowthOf | investment_clicker_new.js:610-626 | growth is non-negative and positive exactly for a positive holding |
| InvestmentGrowth.PartialGrowth | investment_clicker_new.js:610-626 | the summed growth is non-negative |
| InvestmentGrowth.Grown | investment_clicker_new.js:610-626 | each holding grows by its growth |
| InvestmentGrowth.GrowthIsHoldingsGrowth | investment_clicker_new.js:610-628 | the growth credited to cash equals the growth of the holdings total |
| InvestmentGrowth.EventOf | investment_clicker_new.js:50-55 | the bull market is in year 3, the emergency in 4, the crash in 5, the rate rise in 7, and no event otherwise |
| InvestmentGrowth.FinalScore | investment_clicker_new.js:788-789 | the score is `min(100, Round(balance/2500·100))` plus 20 for diversification, capped at 100; non-negative for non-negative cash and 100 from 2500 |
| InvestmentGrowth.ScoreMonotone | investment_clicker_new.js:788-789 | more cash, or diversification, never lowers the score |
| InvestmentGrowth.Grow | investment_clicker_new.js:610-628 | a year's growth never lowers a holding or cash, keeps which holdings are positive, and counts the year |
| InvestmentGrowth.VerdictThresholds | investment_clicker_new.js:788-812 | Wall Street Wolf exactly when cash plus 500 for diversification reaches 1987.5, Rookie exactly below 1237.5 |
| InvestmentGrowth.AdvanceYear | investment_clicker_new.js:605-654 | a year keeps the invariant, counts the year, extends the history by one point recording the new state, and finishes exactly at year 10 with `FinalScore` |
| InvestmentGrowth.CloseYear | investment_clicker_new.js:631-668 | the emergency costs 150 cash in year 4; stocks gain 25% in year 3 and lose 15% in year 5; bonds' base return becomes 8% in year 7; nothing else changes |
| InvestmentGrowth.GrowthCountedTwice | investment_clicker_new.js:610-628 | in a year without events, cash plus holdings rise by twice the growth, because growth is credited to both |
| InvestmentGrowth.Game.constructor | investment_clicker_new.js:7-21 | the game starts at `Initial` |
| InvestmentGrowth.Game.InvestClicked | investment_clicker_new.js:566-597 | the state and messages are those of `Invest` |
| InvestmentGrowth.Game.PlaceNow | investment_clicker_new.js:572-580 | the state becomes `Place` of the old state; the lesson pops up exactly on the type's first investment |
| InvestmentGrowth.Game.CheckDiversificationNow | investment_clicker_new.js:670-676 | the state and lesson are those of `CheckDiversification` |
| InvestmentGrowth.Game.AdvanceYearClicked | investment_clicker_new.js:605-654 | the state and result are those of `AdvanceYear` |
| InvestmentGrowth.Game.CloseYearNow | investment_clicker_new.js:628-654 | the state and result are those of `CloseYear` |
| InvestmentGrowth.Game.GrowHoldings | investment_clicker_new.js:610-626 | the loop over the assets leaves the portfolio at `Grown` and returns the total growth; the other fields are unchanged |
| InvestmentGrowth.Game.GrowOne | investment_clicker_new.js:611-625 | one asset grows by `GrowthOf` and nothing else changes |
| InvestmentGrowth.Game.ApplyMarketEvent | investment_clicker_new.js:656-668 | the state becomes `ApplyEvent` of the old state |

## Left out

- Rendering, DOM, CSS, animations, sounds, charts, particles, drag and touch gestures, modals and the I18N text are not modelled. A number formatted with `toFixed` is modelled as the number.
- Persistence (`localStorage` save and load) and the `gameCompleted` event bus are not modelled. endGame's dispatch is modelled as the store's `HandleComplete` applied right after.
- JavaScript floating point is modelled as exact rationals. NaN is modelled as `None` where the source produces it: `FinishPoints`, and the accuracy (`Analytics.Accuracy`), the financial IQ (`Analytics.FinancialIQ`) and the completion score (`Analytics.EventScore`) computed from a zero or missing total. Infinity and rounding error are not modelled.
- Analytics.HandleComplete: an event with a game id and a non-zero total but neither a score nor a correct count is dropped, where `progress-analytics.js:111-118` would log it with a NaN score. No dispatch in the repository sends such an event: `games.js:721`, `games.js:1554` and `script.js:2068` all pass a score, and `App.CompletionEventOf` proves that endGame's event has `EventScore == Some(points)`.
- Randomness and shuffles are parameters. The scenario, temptation and news pools are inputs or constants as in the source.
- Timers are explicit events. The Budget Boss feedback delay is part of `MakeDecision`; the Memory completion delay returns the score as the result of the finishing click.
- The legacy investment clicker later in `games.js` (after Debt Escape), `help-system.js`, `sound-system.js` and `utilities.js` are not part of this model.
- Stock Trader: `isPaused` is never set in the source, so the pause branch of the tick is not modelled. The news ticker's text is not modelled.
- Stock Trader and the Credit Card game never call `finishGame`, so they never reach the profile or the analytics store. The model does not connect them.
- MoneyMemory.Game.constructor: a card's term/definition face is not modelled (only the term id matters for matching). The unused `gameState.score` field is dropped.
- CreditCard.Reset: accepts any deck. `DealStartsWithCard` and `PerfectAndHopelessGames` state what holds when the deck is a shuffle of the 15 cards.
- StockTrader.Trade: requires a selected, listed stock and a portfolio entry for every symbol (`Tradable`). The buy and sell buttons exist only in the form `selectStock` renders for a listed stock (`more-games.js:1329-1362`), and the portfolio is created with every symbol; the invariant is kept when it held before.
- InvestmentGrowth.Game.InvestClicked: requires fewer than 10 years. After year 10 the source replaces the buttons with the end screen, so no click can arrive.
- Investment Growth's final score uses only the cash balance, not the holdings, as the source does (`investment_clicker_new.js:782-789`). Each year's growth is credited to both holding and cash (`GrowthCountedTwice`). Both are modelled as written.
- Debt Escape's level-3 event can leave savings negative until the next settlement (`LevelThreeEventOverdraws`). It is modelled as written, and so the invariant does not require savings ≥ 0 on level 3.
- The played Debt Escape state machine uses the corrected definitions listed under Findings: `ChoiceButtons` charges the balanced option once, `Level` sets the boss flag on level 5, and `ApplyStrategy` floors stress and debt at 0. The as-written versions are kept beside them with the lemmas that show the difference.
- The level-4 strategy prompt appears on months 1, 4, 7, … (`month % 3 == 1`, `games.js:326-329`), as the code does.
- The Budget Boss victory points are computed in `showVictory` as `round(budget/levelBudget·100) + 50` and passed to `endGame(finalPoints, 100, finalPoints)` (`script.js:1572`, `script.js:1654`). endGame clamps the score to 100 but only floors the points at 0 (`script.js:1806-1807`), so up to 150 points are credited; the model does the same.

## Findings

| source | as written | input that shows it | evidently intended | confidence | as-written member | corrected member |
|---|---|---|---|---|---|---|
| games.js:412, games.js:547 | the balanced button already carries `Math.round(cost*0.4)`, and `handleChoice` discounts it again | a 500 temptation: balanced charges 80 | a single 40% charge, 200 | not executed | DebtEscape.BalancedChargedTwiceAsWritten | DebtEscape.ButtonsChargeOnce |
| games.js:576 (level table games.js:139-157) | `isBoss` is read at month end but no level sets it, so surviving the boss timer does not clear level 5 | level 5, last month, boss timer survived with savings 1000 and debt 500 (`BossTimerLosesAsWritten`) | the boss level is cleared by surviving the boss fight | not executed | DebtEscape.BossTimerLosesAsWritten | DebtEscape.BossSurvivalWins |
| games.js:461-469 | snowball and avalanche subtract without a floor | stress 5 → −5 under snowball; debt 300 → −200 under avalanche | stress floored at 0, as everywhere else, and debt not below 0 | not executed | DebtEscape.StrategiesUnflooredAsWritten | DebtEscape.ApplyStrategy |
| script.js:1360-1362 | when every scenario has been used, the draw indexes an empty list | one scenario, already used (`ExhaustedDrawFails`) | restart the used list and draw again, as Debt Escape does | not executed; unreachable with the shipped pool of 50 scenarios and at most 30 days | BudgetBoss.ExhaustedDrawFails | BudgetBoss.Draw |
