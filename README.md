# Accountability Grid: study sessions and the coin economy, in Dafny

This project models the logic at the centre of Accountability Grid, a habit-tracking web app. The app grants coins and experience for focused study sessions, and users spend the coins in an in-app store. The model covers four components:

- **StudyTimer** (`study_timer.dfy`, module `StudyTimer`): the focus timer. This covers the duration slider and its 60-minute gate for free accounts, the reset when the timer opens, the one-second countdown, the pause on visibility loss ("Cheating detected!"), the manual pause, and the start/complete handshake with the backend. The `MM:SS` formatter is modelled too, and its output is proved to read back to the same number of seconds.
- **MonetizationProvider** (`monetization.dfy`, module `Monetization`): the ledger. It holds coins, XP and level, streak freezes, the inventory, the active theme, the boost expiry and the subscription tier. Its operations are `refreshUser`, `isBoostActive`, `purchaseSubscription`, `buyTheme`, `buyBoost`, `buyFreeze`, `equipTheme` and `awardXP`.
- **Marketplace** (`marketplace.dfy`): the four-item catalogue, the button each card shows, the membership and funds checks before the confirmation popover opens, and the popover's Buy button.
- **AppContent** (`app.dfy`, module `App`): the day-status map built from the fetched logs, the five-way day-click decision, and the optimistic unmark and completion updates. It also wires the timer's completion to the grid and the provider.

`remote.dfy` holds the shared `Option` and `Reply` types. `scenarios.dfy` proves three end-to-end cases of the model.

Each component's handlers are pure transition functions on a state datatype (`TimerState`, `Economy`, `GridState`), and lemmas state their properties. Each component is also a class with the component's state as fields. Its methods update those fields and are proved to perform exactly the transition functions (`ensures State() == AfterStart(old(State()), reply)`). Backend calls are not modelled. Each call's answer (`Ok(data)` or `Error(message)`) is a parameter of the handler that awaits it, so every answer is covered. The current time and today's day index are also parameters.

Where the code differs from the app's design intent, the model follows the code:
- A tamper pause leaves no lasting mark. Starting again overwrites the status (`TamperNotSticky`).
- `equipTheme` does not check ownership. Only the store's button offers Equip for owned themes alone (`EquipRules`, `ThemeButton`).
- `buyFreeze` does not await its refresh and changes no local state.
- The completion path never calls `awardXP`. XP and level reach the client only through `refreshUser` (`AppContent.HandleTimerComplete`).
- Research mode is meant to be local only and outside the reward guarantees. Its completion still reaches `handleTimerComplete`, which inserts the day into `study_logs` with `verified: true`. No server check is involved (`ResearchCompletionStoredAsVerified`).
- Free accounts are not clamped to 60 minutes. A larger slider value is refused, and on the slider's 1-to-120 grid in steps of 5 the largest value a free account can apply is 56 (`FreeSliderCeiling`).

## Model

| member | source | states |
|---|---|---|
| StudyTimer.AfterOpen | src/components/StudyTimer.jsx:18-28 | Opening sets `isOpen` and the day and keeps duration, token and upsell. Reopening an open timer keeps the countdown, running flag and status. |
| StudyTimer.AfterSlide | src/components/StudyTimer.jsx:146-158 | The new duration is either the old one or the slider value. The upsell changes only for a free account above 60. Open flag, day and token are kept. An unchanged duration keeps countdown and running flag. |
| StudyTimer.AfterStart | src/components/StudyTimer.jsx:66-84 | Start never changes duration, countdown, mode, open flag, day or upsell. Afterwards the timer runs or the status is "Initializing secure session...". |
| StudyTimer.StartCall | src/components/StudyTimer.jsx:66-76 | No call iff research mode. Otherwise `start_study_session` with the current duration. |
| StudyTimer.CompleteCall | src/components/StudyTimer.jsx:86-106 | No call iff research mode or no bound token. Otherwise `complete_study_session` with the bound, non-empty token and the day. |
| StudyTimer.AfterComplete | src/components/StudyTimer.jsx:86-121 | Completion stops the timer and keeps countdown, duration, token, mode and day. An open timer closes iff the outcome is Completed. |
| StudyTimer.Ticked | src/components/StudyTimer.jsx:30-47 | From a non-negative countdown, a tick lowers it by at most one and never below zero. Completion fires only from a positive countdown and leaves it at zero and stopped. Duration and day are kept. |
| StudyTimer.AfterVisibility | src/components/StudyTimer.jsx:50-62 | The state is unchanged, or the page was hidden while running and the result is exactly that state stopped with the tamper status. |
| StudyTimer.DurationGate | src/components/StudyTimer.jsx:146-158 | For a free account, a value above 60 leaves `duration` unchanged and opens the upsell popover. Any other value becomes `duration`. |
| StudyTimer.FreeSliderCeiling | src/components/StudyTimer.jsx:140-148 | On the slider's grid (1 to 120, step 5), every value a free account can apply is at most 56, and 56 itself is on the grid and within the limit. |
| StudyTimer.OpenResets | src/components/StudyTimer.jsx:19-28 | Opening a closed timer sets `timeLeft` to `duration*60`, stops it, turns research mode off and sets the status to "Ready to focus?". |
| StudyTimer.InvariantKept | src/components/StudyTimer.jsx:19-121 | Every handler keeps the duration in 1..120 and the countdown non-negative. |
| StudyTimer.TickSteps | src/components/StudyTimer.jsx:30-47 | A tick fires only while open and running with time left. It lowers `timeLeft` by exactly 1, or at the last second sets it to 0 and runs completion. `timeLeft` never goes negative. |
| StudyTimer.CountsDown | src/components/StudyTimer.jsx:32-41 | `n` ticks with more than `n` seconds left lower the countdown by `n` and change nothing else. |
| StudyTimer.CompletesAtLastTick | src/components/StudyTimer.jsx:32-41 | A running timer with `t` seconds left fires completion at its `t`-th tick and at no earlier one. |
| StudyTimer.TamperPauses | src/components/StudyTimer.jsx:51-58 | Hiding the page during a running verified session stops it with "Cheating detected! Timer paused." and keeps the remaining time. The next tick does nothing. |
| StudyTimer.VisibilityIgnored | src/components/StudyTimer.jsx:51-57 | Visibility changes do nothing in research mode, on a stopped or closed timer, or when the page becomes visible. |
| StudyTimer.ManualPauseKeepsStatus | src/components/StudyTimer.jsx:190-194 | A manual pause keeps the status, so it is distinguishable from the tamper pause. |
| StudyTimer.TamperNotSticky | src/components/StudyTimer.jsx:66-84 | A successful start after a tamper pause runs the timer again under "Focus mode ON. Don't leave!". |
| StudyTimer.StartHandshake | src/components/StudyTimer.jsx:66-84 | Research mode starts at once with no call, so the reply cannot change the outcome. In verified mode the timer runs, and the token is bound, only when the start call succeeds. On error only the status changes. |
| StudyTimer.CompletionRules | src/components/StudyTimer.jsx:86-121 | Completion always stops the timer. The day is reported exactly in research mode, or with a bound token and a `true` verdict. A `false` verdict is reported as a rejection with "Validation Failed". A missing token sends nothing. In research mode and without a token no call is made, and the verdict cannot change the outcome. |
| StudyTimer.FormatTime | src/components/StudyTimer.jsx:123-127 | The display has at least five characters, a colon three from the end, and digits everywhere else. |
| StudyTimer.DecimalDigits | src/components/StudyTimer.jsx:124-125 | `toString` of a non-negative integer is a non-empty digit string that reads back to the number. |
| StudyTimer.PadKeepsValue | src/components/StudyTimer.jsx:124-125 | `padStart(2, '0')` keeps the value read and yields at least two characters. |
| StudyTimer.FormatTimeRoundTrip | src/components/StudyTimer.jsx:123-127 | For every `s`, the field before the colon reads as `s div 60` and the one after it as `s mod 60`. Reading back with a parser that takes only seconds below 60 gives `s`. |
| StudyTimer.FormatTimeWidth | src/components/StudyTimer.jsx:123-127 | `formatTime(s)` is exactly five characters iff `s < 6000`. |
| StudyTimer.Timer.constructor | src/components/StudyTimer.jsx:8-13 | The initial state: 25 minutes, 1500 seconds, stopped, verified mode, "Ready to focus?". |
| StudyTimer.Timer.Open | src/components/StudyTimer.jsx:18-28 | Opening performs `AfterOpen` and keeps the invariant. |
| StudyTimer.Timer.ResetCountdown | src/components/StudyTimer.jsx:20-24 | The body of the reset effect, as `Reset`. |
| StudyTimer.Timer.SlideDuration | src/components/StudyTimer.jsx:146-158 | The slider's onChange performs `AfterSlide`. A new duration re-runs the reset effect. |
| StudyTimer.Timer.ToggleResearch | src/components/StudyTimer.jsx:176-181 | The research checkbox sets research mode. |
| StudyTimer.Timer.Start | src/components/StudyTimer.jsx:66-84 | `handleStart` performs `AfterStart` with the start call's reply, and returns the call it makes (`StartCall`). |
| StudyTimer.Timer.Complete | src/components/StudyTimer.jsx:86-121 | `handleComplete` performs `AfterComplete` with the verdict, and returns the outcome and the call it makes (`CompleteCall`). |
| StudyTimer.Timer.Tick | src/components/StudyTimer.jsx:30-47 | One interval tick performs `Ticked` and returns the completion it fired, if any. |
| StudyTimer.Timer.VisibilityChange | src/components/StudyTimer.jsx:50-62 | The visibilitychange handler performs `AfterVisibility`. |
| StudyTimer.Timer.Pause | src/components/StudyTimer.jsx:190-194 | The Pause button clears `isRunning` only. |
| StudyTimer.Timer.Display | src/components/StudyTimer.jsx:165-167 | The displayed countdown reads back to `timeLeft`, which the timer's invariant keeps non-negative. |
| StudyTimer.Timer.Close | src/components/StudyTimer.jsx:196 | Cancel (`onClose`) closes the timer and changes nothing else. |
| Monetization.Refreshed | src/components/MonetizationContext.jsx:24-52 | The premium modal is kept. With a user and a profile row, `isPremium` matches the tier, the theme is non-empty and the level is non-zero. Without a user or a row, only the inventory can change, and only when one was fetched. |
| Monetization.BoostActive | src/components/MonetizationContext.jsx:73-75 | `isBoostActive`: an expiry is set and now is strictly before it (properties in `BoostLapses`). |
| Monetization.Awarded | src/components/MonetizationContext.jsx:154-179 | Only xp and level change, and the write carries exactly the new pair. The level rises by at most one. A non-negative award adds at least the amount. |
| Monetization.AfterPurchaseCall | src/components/MonetizationContext.jsx:91-117 | Success iff the call returned `true` without error. A failure leaves the state as it was. |
| Monetization.Equipped | src/components/MonetizationContext.jsx:140-152 | Only the active theme can change. It becomes the id on success, and nothing changes on error. |
| Monetization.Subscribed | src/components/MonetizationContext.jsx:77-89 | An error changes nothing. Success sets the tier, `isPremium` and closes the modal. Coins, xp, level, inventory, theme and boost are kept either way. |
| Monetization.RefreshRules | src/components/MonetizationContext.jsx:24-51 | Without a user nothing changes. Otherwise `isPremium` iff tier is not 'free'. xp defaults to 0, level (null or 0) to 1, and theme (null or "") to 'default'. The boost expiry is copied, so null stays null. The inventory becomes the fetched ids. A read that returned nothing leaves its part unchanged. |
| Monetization.RefreshIdempotent | src/components/MonetizationContext.jsx:24-51 | Refreshing twice with the same answers equals refreshing once. |
| Monetization.BoostLapses | src/components/MonetizationContext.jsx:73-75 | The boost is active iff an expiry is set and now is strictly before it. Once lapsed, it stays lapsed. |
| Monetization.BoostDoublesAward | src/components/MonetizationContext.jsx:154-159 | An award adds `2*amount` while boosted and `amount` otherwise. The boosted gain is exactly twice the unboosted one. |
| Monetization.AwardRules | src/components/MonetizationContext.jsx:159-178 | Level rises by exactly one iff the new xp reaches `level*100`, and never by more. A non-negative award never lowers xp. Only xp and level change, and the write carries exactly that pair. |
| Monetization.ThresholdCrossedOnce | src/components/MonetizationContext.jsx:159-166 | With xp one below the threshold, an award of 2 raises the level by exactly one. |
| Monetization.PurchaseCallRules | src/components/MonetizationContext.jsx:91-117 | `buyTheme`/`buyBoost` succeed iff the call returns `true` without error. Failure changes nothing. Success leaves the refreshed state. |
| Monetization.EquipRules | src/components/MonetizationContext.jsx:140-152 | A failed write changes nothing. A successful one sets only `activeTheme`, owned or not. |
| Monetization.SubscribeRules | src/components/MonetizationContext.jsx:77-89 | A failed write changes nothing. A successful one sets the tier and `isPremium := true`. |
| Monetization.PremiumMatchesTierKept | src/components/MonetizationContext.jsx:77-89 | `isPremium == (tier != 'free')` is kept by every operation except a successful subscription to 'free'. |
| Monetization.Provider.constructor | src/components/MonetizationContext.jsx:10-22 | The initial ledger: free tier, 0 coins, 0 xp, level 1, 'default' theme, no boost. |
| Monetization.Provider.Refresh | src/components/MonetizationContext.jsx:24-51 | `refreshUser` performs `Refreshed` with the two reads' results. |
| Monetization.Provider.PurchaseSubscription | src/components/MonetizationContext.jsx:77-89 | Writes the tier, then performs `Subscribed`. |
| Monetization.Provider.BuyTheme | src/components/MonetizationContext.jsx:91-103 | Always issues `purchase_theme(itemId, cost)` with no local funds check, then performs `AfterPurchaseCall`. |
| Monetization.Provider.BuyBoost | src/components/MonetizationContext.jsx:105-117 | Always issues `activate_xp_boost(hours, cost)`, then performs `AfterPurchaseCall`. |
| Monetization.Provider.PurchaseCall | src/components/MonetizationContext.jsx:92-102 | Error or a falsy result returns false without refreshing. Otherwise it refreshes, then returns true. |
| Monetization.Provider.BuyFreeze | src/components/MonetizationContext.jsx:119-138 | With `coins < cost` it returns false and writes nothing. Otherwise it writes `coins - cost` (at least 0) and `streakFreezes + 1`, and returns true iff the write succeeds. Local state is untouched. |
| Monetization.Provider.EquipTheme | src/components/MonetizationContext.jsx:140-152 | Writes the theme, then performs `Equipped`. |
| Monetization.Provider.AwardXP | src/components/MonetizationContext.jsx:154-179 | Performs `Awarded` and returns the (xp, level) write. |
| Marketplace.ButtonFor | src/components/Marketplace.jsx:58-74 | `getButtonState`: disabled iff labelled Active, and then with no action. "Buy" iff the action opens the confirmation. Equip is offered only for an owned theme, with that theme's id. |
| Marketplace.PurchaseGate | src/components/Marketplace.jsx:76-86 | The checks of `confirmPurchase`. Confirm only when membership and funds both pass. A funds refusal carries the positive shortfall `cost - coins`. A membership refusal only for a members-only item and a free account. |
| Marketplace.CatalogueFacts | src/components/Marketplace.jsx:15-56 | Four items with distinct ids, costing 50, 500, 200 and 150. Only `theme_gold` is members-only. Each paying handler charges the card's cost. |
| Marketplace.ThemeButton | src/components/Marketplace.jsx:58-65 | A theme shows "Active" (disabled, no action) iff it is the active theme. Otherwise it shows "Equip" iff owned, else "Buy". Equip is offered only for owned themes. |
| Marketplace.OtherButtons | src/components/Marketplace.jsx:67-73 | The boost is disabled as "Active" iff a boost runs. Every other non-theme item always offers "Buy". |
| Marketplace.GateOrder | src/components/Marketplace.jsx:76-86 | The membership check precedes the funds check. A funds refusal has a positive shortfall. The popover may open iff both pass. |
| Marketplace.ComingSoonReportedAsPurchase | src/components/Marketplace.jsx:44 | As written, the placeholder handler resolves to a truthy toast id. |
| Marketplace.Store.constructor | src/components/Marketplace.jsx:13 | The popover starts closed. |
| Marketplace.Store.ConfirmPurchase | src/components/Marketplace.jsx:76-95 | Returns the gate's verdict. It opens the popover holding exactly the item iff both checks pass, and otherwise leaves the popover as it was. |
| Marketplace.Store.ClickItem | src/components/Marketplace.jsx:58-74 | A card click runs the offered action. "Active" does nothing, Equip runs `equipTheme` on that item, and Buy runs `confirmPurchase`: it returns the gate, opens the popover holding the item iff the gate is Confirm, and leaves the ledger alone. |
| Marketplace.Store.Dismiss | src/components/Marketplace.jsx:226-232 | Cancel closes the popover. |
| Marketplace.Store.Buy | src/components/Marketplace.jsx:233-241 | Closes the popover first, then runs the held item's handler. The success toast appears iff the handler's purchase succeeded; the placeholder never shows it. |
| App.LogMap | src/App.jsx:50-55 | Every day named by a row is in the map, the map has no more entries than rows, and the last row's day maps to its status. |
| App.DayClick | src/App.jsx:67-113 | A click is ignored iff the day is in the future. The timer opens only for today while it is not studied. Unmarking is asked only for a studied today. |
| App.AfterDayClick | src/App.jsx:67-113 | The statuses and the loading flag are kept. The selected day and the unmark popover can change only to today. |
| App.TickInsert | src/App.jsx:144-152 | A tick inserts a row iff it completes, in either mode. The row is that day, 'studied' and `verified: true`. |
| App.ResearchCompletionStoredAsVerified | src/App.jsx:144-152 | A research-mode session completes at its last tick with no completion call, so the verdict plays no part. Yet its day is inserted with `verified: true`. |
| App.LogMapLastWins | src/App.jsx:50-55 | A day is in the map iff some row names it, and it maps to the status of the last such row. |
| App.DayClickCases | src/App.jsx:67-113 | The five-way click decision. A future day is ignored and a studied past day shows "History is written". A studied today asks to unmark. An unstudied other day shows "You missed this day.". The timer opens iff the day is today and unstudied. |
| App.DayClickKeepsData | src/App.jsx:67-113 | A click never changes the statuses, and it can only ask to unmark today. |
| App.AppContent.constructor | src/App.jsx:20-29 | Empty map, loading, no popovers, a closed timer in its initial state. |
| App.AppContent.BuildLogMap | src/App.jsx:51-54 | The `forEach` loop yields exactly `LogMap(rows)`. |
| App.AppContent.FetchLogs | src/App.jsx:40-58 | On success the map is rebuilt from the rows. On error it is left unchanged. `loading` ends false. |
| App.AppContent.HandleDayClick | src/App.jsx:67-113 | Performs `AfterDayClick`. It opens the timer for the day exactly when `DayClick` says `OpenTimer`. |
| App.AppContent.DeleteLog | src/App.jsx:115-134 | Removes only the day's key at once. On error the logs are fetched again. |
| App.AppContent.ConfirmUnmark | src/App.jsx:329-334 | Deletes the held day and closes the popover. The whole grid state is given: the day is removed, or the map is refetched after a failed delete, and nothing else changes except `loading` ending false on a refetch. |
| App.AppContent.HandleTimerComplete | src/App.jsx:136-159 | Sets `data[day] = 'studied'` and leaves other entries unchanged, whatever the insert's reply. It returns the `study_logs` row it inserts: the day, 'studied', `verified: true`. The provider is only refreshed, so xp comes from the server and never from `awardXP`. |
| App.AppContent.TimerTick | src/App.jsx:349-354 | A tick that completes passes the day to `handleTimerComplete` and returns its insert (`TickInsert`). Any other outcome, including a rejected or failed verification, leaves grid and ledger unchanged. |
| Scenarios.VerifiedSessionCompletes | src/components/StudyTimer.jsx:66-121 | Open, start with a token, and 1500 ticks with a `true` verdict complete for today at the last tick. No earlier tick completes. |
| Scenarios.TamperAfterFiveSeconds | src/components/StudyTimer.jsx:30-62 | Hiding the page 5 s into a verified session pauses it with the tamper status at 1495 s. The next tick does nothing. |
| Scenarios.GoldThemeWithThreeHundredCoins | src/components/Marketplace.jsx:76-86 | With 300 coins, the 500-coin gold theme is refused to a member with a shortfall of 200, and to a free account for membership. |

## Left out

- Backend transport and the stored procedures (`start_study_session`, `complete_study_session`, `purchase_theme`, `activate_xp_boost`, and the table reads and writes). Their internals and atomicity are not visible in this code, so each answer is a parameter.
- React scheduling. `setInterval` timing, effect re-runs beyond the ones modelled, stale closures, and interleaving between awaits are not modelled. Each handler runs to completion with the answers it is given.
- Unawaited follow-ups. The refetch in `deleteLog` and the refresh in `handleTimerComplete` are modelled as finishing before the operation returns. `buyFreeze`'s refresh is left to a later `Provider.Refresh` call, so its untouched local state stays visible.
- The clock. `getDayOfYear` (src/App.jsx:60-65) and `new Date()` are not modelled: today's index and the current time are integer parameters, and timestamps are integers.
- The `year` filter on the log queries. It is applied by the backend.
- The `user_id` and `year` columns of the `study_logs` insert. They come from the session and the clock, so `LogInsert` carries only the day, the status and the `verified` flag.
- Toast texts other than the cited status strings, popover coordinates, JSX and styles, the view switcher, and the XP-bar percentage (floating point).
- The upsell popover's "Upgrade" button and the premium modal. These are presentation and only toggle visibility.
- `fetchBadges`, the `purchaseItem` placeholder (it always resolves false and nothing calls it), the service-worker "Force Update" button, auth bootstrap, and `InstallPWA`.
- Null columns. `subscription_tier` and `coins` are assumed non-null. A null tier would count as premium, because `null !== 'free'`.
- The timer's `dayIndex` before any day is selected. The parent passes null, but the timer only opens after a click sets it, so the model starts it at 0.
- Concurrency across tabs and double spending, which depend on the backend.

## Findings

| source | as written | input that shows it | evidently intended | confidence | as-written member | corrected member |
|---|---|---|---|---|---|---|
| src/components/Marketplace.jsx:44 | The Rainy Lo-Fi handler is `() => toast("Coming soon!")`, so it resolves to the new toast's id, a non-empty string. The Buy button at line 238 treats that as success. | Confirm Rainy Lo-Fi with at least 200 coins: "Purchased Rainy Lo-Fi!" appears, though nothing was bought and no coins were spent. | The placeholder resolves falsy and no purchase toast appears. | medium: relies on react-hot-toast returning the toast id; not executed | Marketplace.ComingSoonReportedAsPurchase | Marketplace.Store.Buy |
