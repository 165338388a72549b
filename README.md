# Lucky Drop draw engine in Dafny

This project models the core of Lucky Drop, a browser "gacha" prize machine.
The model covers:

- the weighted selector with its pity override and guaranteed-rare buff;
- the single and ten-draw orchestrator that threads the pity counter;
- the spin state machine (Idle, Spinning, Result, Idle) with its step budget that lands on the drawn slot;
- the reconciler that writes a draw into the history and the coin balance;
- the mission-claim and shop-purchase handlers;
- the admin panel's prize-list editor;
- the local user store (register, login, logout, current user, save);
- the statistics shown on the missions, profile and inventory pages.

Modules:

- `Types` (types.dfy): the records of the application: prize, history entry, user state, profile, shop item, mission.
- `History` (history.dfy): order-preserving filtering and the per-rarity counts that several pages compute.
- `Selector` (selector.dfy): `getWeightedRandomPrize`. It is a function `Choose` plus a method `GetWeightedRandomPrize` that runs the scan loop.
- `Draw` (draw.dfy): the pool of nine, single and batch draws, the step budget, and the reconciler.
- `Economy` (economy.dfy): mission claims and shop purchases.
- `Game` (game.dfy): the `Engine` class. Its fields are the app's state and refs; its methods are `handleSpin`, the ticks of `spinLoop`, `finishSpin`, `resetGame` and the two economy handlers.
- `AdminPanel`, `Auth`, `Missions`, `Profile`, `Inventory`: one module per remaining source file.
- `Arithmetic` (arith.dfy): one fact about multiples, shared by the step budget and the luck score.

Randomness is an explicit parameter. A `Roll` carries a pick index for the pity and buff branches and an integer position in `[0, total)` for the weighted scan. Clock readings and fresh ids are parameters too. Weights are integers. For integer, non-negative weights `ScanOdds` proves that each prize is drawn with probability weight/total; a negative weight, which `p.weight || 1` keeps as it is, is outside that lemma.

Two behaviours of the code shape the model:

- **Buff in a batch.** The selector reads the guaranteed-rare buff from the state of the render in which the button was clicked. Clearing the buff only queues an update. So every draw of one `handleSpin` sees the buff as it was before the draw, all ten batch draws included. `BuffCoversBatch` states this.
- **Stale closures in `finishSpin`.** See "## Findings".

## Model

| member | source | states |
|---|---|---|
| Selector.EffectiveWeight | App.tsx:242 | a zero weight counts as exactly 1; any other weight is used unchanged; a non-negative weight gives at least 1 |
| Selector.ScanFrom | App.tsx:241-246 | the scan from any slot returns an index inside a non-empty pool, at or after the starting slot unless it is the fallback 0; starting past the end gives slot 0 |
| Selector.Scan | App.tsx:237-246 | a non-positive total (`TotalWeight`, the sum of effective weights) selects slot 0; the result always lies inside a non-empty pool |
| Selector.WeightedScan | App.tsx:237-246 | the loop that subtracts each weight from the random position returns the scan's slot |
| Selector.PrefixMonotone | App.tsx:237 | with non-negative weights, prefix sums grow by at least 1 per slot |
| Selector.ScanFromInterval | App.tsx:240-245 | from slot i, the scan picks slot k exactly when the random position lies in k's weight interval |
| Selector.ScanInterval | App.tsx:240-245 | for 0 <= r < total, slot k is chosen iff Prefix(k) <= r < Prefix(k) + weight_k |
| Selector.ScanOdds | App.tsx:237-246 | exactly weight_k of the total positions select slot k, so each prize is drawn with probability weight/total |
| Selector.IndicesWhere | App.tsx:219-229 | the index list holds exactly the slots whose rarity qualifies, in increasing order |
| Selector.Choose | App.tsx:216-247 | the returned prize is pool[index]; pity fires iff the threshold is positive, counter+1 reaches it and the pool holds a legendary, and then the index is the legendary list's entry at the pick; otherwise an active buff with a non-common prize in the pool picks the non-common list's entry at the pick, never a common; in every other case (no buff, or no non-common prize) the result is the weighted scan |
| Selector.GetWeightedRandomPrize | App.tsx:216-247 | the imperative selector returns exactly Choose's selection |
| Selector.PickOdds | App.tsx:219-231 | the uniform pick over a strictly increasing candidate list selects each candidate for exactly one of the n picks and any other slot for none |
| Draw.ActivePool | App.tsx:253 | the active pool is the first min(9, n) prizes |
| Draw.Draws | App.tsx:271-279 | one result per roll, each drawn from the pool, the pity threaded by `NextPity` (reset on a legendary, +1 otherwise) |
| Draw.BatchDraw | App.tsx:271-281 | the batch loop yields exactly ten results in draw order and commits the threaded final pity |
| Draw.FinalPity | App.tsx:277-280 | the committed pity equals the number of draws after the last legendary, or the old counter plus the number of draws when none was legendary |
| Draw.PityBelowThreshold | App.tsx:218-280 | with pity on and a legendary in the pool, the counter left by any non-empty sequence of draws stays below the threshold |
| Draw.BuffCoversBatch | App.tsx:227-275 | with the buff set and a non-common prize in the pool, no draw of the sequence is common |
| Draw.JsRem | App.tsx:296 | JavaScript's remainder lies strictly between -b and b and agrees with the mathematical one for a non-negative dividend |
| Draw.Landing | App.tsx:293-310 | the single-draw budget (`SingleStepBudget`, three full turns plus `StepsNeeded`) is at least 3; from a slot in the pool, stepsNeeded lies in [0, count); after exactly budget ticks of (i+1)%count the visible slot is the target |
| Draw.NewEntries | App.tsx:322-327 | one history entry per result, in result order, carrying that prize's name and rarity |
| Draw.NewEntriesCount | App.tsx:322-327 | the new entries contain each rarity as often as the results do |
| Draw.Reconcile | App.tsx:322-335 | the new history is the new entries followed by the old history; coins grow by exactly 10 per result; nothing else in the user state changes |
| Draw.ReconcileCounts | App.tsx:328 | each rarity's history count grows by that rarity's count among the results |
| Economy.ClaimMission | App.tsx:183-191 | an already claimed mission changes nothing; otherwise exactly its reward is added and its id appended; afterwards the id is claimed |
| Economy.ClaimTwice | App.tsx:184 | claiming the same mission twice pays once |
| Economy.BuyShopItem | App.tsx:193-213 | too few coins changes nothing; otherwise exactly the price is deducted, the balance stays non-negative, claims are kept, and only the item's effect applies (buff set, or pity +5) |
| Game.Engine.HandleSpin | App.tsx:250-302 | refused and nothing changes unless Idle with a non-empty prize list; otherwise: Spinning, results and pity are those of the draws on the first nine prizes with the pre-draw buff, the buff is cleared, the budget is set and the first tick runs; the machine invariant is kept |
| Game.Engine.Start | App.tsx:256-301 | the accepted path of handleSpin, with the same post-state |
| Game.Engine.StartBatch | App.tsx:271-286 | batch path: ten draws, pity committed once, 20 steps, first tick done |
| Game.Engine.StartSingle | App.tsx:287-300 | single path: one draw, target slot set, landing budget set, first tick done |
| Game.Engine.Launch | App.tsx:257-269 | the state becomes Spinning, the batch flag is recorded, and only the guaranteed-rare buff is cleared |
| Game.Engine.DrawBatch | App.tsx:271-285 | the committed results and pity are the threaded draws; budget 20, target 4 |
| Game.Engine.DrawSingle | App.tsx:288-299 | the committed result and pity are those of one draw; the budget lands the rotation on the drawn slot |
| Game.Engine.Tick | App.tsx:304-314 | a tick advances the visible slot by one modulo the pool size and consumes one step; the machine stays Spinning and valid |
| Game.Engine.LastTick | App.tsx:304-335 | the last tick reaches zero steps and reconciles; it changes only the visible slot, the budget, the state, the history and the user state, so a single draw shows its target slot |
| Game.Engine.FinishSpin | App.tsx:317-335 | Result state; the history and coins are reconciled with the draw's results; the balance strictly grows |
| Game.Engine.FinishSpinAsWritten | App.tsx:317-335 | as written: Result state with results drawn, yet the history and user state are unchanged |
| Game.Engine.RunSpin | App.tsx:304-315 | the tick loop runs exactly the remaining budget, changes only the visible slot, the budget, the state, the history and the user state, ends in Result with the single draw on its target slot, and reconciles exactly once |
| Game.Engine.SingleDrawToResult | App.tsx:250-335 | a refused click changes nothing; a single-draw click from Idle with prizes, followed by the whole spin, ends in Result on the drawn slot, with the pity moved on by the draw, the buff cleared, the drawn prize's entry prepended to the history and 10 coins credited; prizes and threshold are kept |
| Game.Engine.ResetGame | App.tsx:356-359 | Result (or any valid state) returns to Idle with no results |
| Game.Engine.HandleClaimMission | App.tsx:183-191 | the user state becomes ClaimMission's |
| Game.Engine.HandleBuyShopItem | App.tsx:193-213 | the user state and pity counter become BuyShopItem's |
| History.OfRarity | components/UserInventory.tsx:16 | the rarity filter keeps only history entries of that rarity |
| History.CountsPartition | components/UserInventory.tsx:19-23 | the legendary, rare and common counts add up to the history's length |
| History.CountConcat | components/Missions.tsx:17 | counts over a concatenation add up |
| History.FilterHistory | components/UserInventory.tsx:14-17 | 'all' returns the history itself; a rarity keeps only entries of that rarity |
| AdminPanel.DashboardOf | components/AdminPanel.tsx:27-29 | total draws is the history length; legendary plus rare drops never exceed it |
| AdminPanel.DecimalString | components/AdminPanel.tsx:54 | the id string is non-empty decimal digits that denote the clock reading, without a leading zero unless it is zero |
| AdminPanel.NewPrize | components/AdminPanel.tsx:53-60 | id from the clock; empty image gets the placeholder URL; missing rarity gives common; empty description gives '暂无描述'; zero or missing weight gives 10 |
| AdminPanel.AddPrize | components/AdminPanel.tsx:51-64 | an empty name leaves the list unchanged; otherwise exactly one prize is appended and the others are kept in order |
| AdminPanel.DeletePrize | components/AdminPanel.tsx:66-71 | unconfirmed changes nothing; confirmed leaves only prizes of the list with another id |
| AdminPanel.DeleteKeepsOthers | components/AdminPanel.tsx:68 | a confirmed delete removes every prize with the id and keeps every other one with its multiplicity |
| AdminPanel.DeleteKeepsOrder | components/AdminPanel.tsx:68 | the survivors keep their relative order |
| AdminPanel.MovePrize | components/AdminPanel.tsx:73-84 | the in-place moves on the array copy produce the specified list `Moved` |
| AdminPanel.ShiftToFront | components/AdminPanel.tsx:76-77 | splice then unshift puts the element first, followed by those before and after it, in order |
| AdminPanel.MovePermutes | components/AdminPanel.tsx:74-83 | every move yields a permutation of the same length |
| AdminPanel.MoveTopOrder | components/AdminPanel.tsx:75-77 | top puts prizes[index] first; those before it move back one slot; those after stay |
| AdminPanel.MoveNeighbour | components/AdminPanel.tsx:78-81 | up/down swap with the neighbour when one exists in that direction, otherwise nothing changes |
| AdminPanel.ApplyEdit | components/AdminPanel.tsx:87 | the edited field takes the new value; all other fields are kept |
| AdminPanel.UpdatePrize | components/AdminPanel.tsx:86-88 | same length and order; prizes with the id get the edit, all others are identical |
| AdminPanel.UpdateUnknownId | components/AdminPanel.tsx:87 | an edit to an absent id changes nothing |
| Auth.NewUser | services/authService.ts:8-50 | a new account: 1000 coins, no claims, both buffs off, empty history, pity 0 |
| Auth.LoginAnswer | services/authService.ts:27-36 | success iff the name is stored with that password; an unknown name is refused as unknown, except a name inherited from Object.prototype, which is refused as a wrong password; success returns the stored profile |
| Auth.RegisterAnswer | services/authService.ts:39-58 | fails iff the name is stored or inherited from Object.prototype; success returns the new profile |
| Auth.CurrentUser | services/authService.ts:66-71 | a profile iff the session name is present, non-empty and stored; then it is that name's profile |
| Auth.Merge | services/authService.ts:78-81 | fields present in the patch override; all others are kept |
| Auth.Saved | services/authService.ts:74-84 | an unknown name changes nothing; the set of accounts never changes; only that name's entry becomes the merged profile |
| Auth.RegisterThenLogin | services/authService.ts:27-58 | after a successful register, login with the same password succeeds with the new profile |
| Auth.SaveEmptyPatch | services/authService.ts:78-81 | a save without fields changes nothing |
| Auth.EmptyNameNeverCurrent | services/authService.ts:41-68 | an account with the empty name can be registered but is never the current user |
| Auth.InheritedNeverStored | services/authService.ts:29-41 | register refuses inherited names, so a store without one never gains one, and no successful login or register is for an inherited name |
| Auth.AuthStore.Login | services/authService.ts:27-36 | answers LoginAnswer, inherited names included; the session becomes the name only on success |
| Auth.AuthStore.Register | services/authService.ts:39-58 | answers RegisterAnswer; a stored or inherited name changes nothing; otherwise the profile is stored and the session set |
| Auth.AuthStore.Logout | services/authService.ts:61-63 | the session is cleared |
| Auth.AuthStore.GetCurrentUser | services/authService.ts:66-71 | returns CurrentUser of the store and session |
| Auth.AuthStore.SaveUserData | services/authService.ts:74-84 | the store becomes Saved's |
| Missions.Progress | components/Missions.tsx:16-26 | totalSpins gives the history length, legendaryCount the legendary count, dailySpins 0 |
| Missions.ProgressPercent | components/Missions.tsx:39 | never above 100; NaN exactly for 0/0; for a positive target, full iff current reaches it |
| Missions.CanClaim | components/Missions.tsx:40-70 | the button is enabled iff progress reaches the target (`IsCompleted`) and the id is not claimed |
| Missions.FullBarIffCompleted | components/Missions.tsx:39-40 | for a positive target, the bar is full iff the mission is completed |
| Missions.DailyNeverCompleted | components/Missions.tsx:23-40 | a dailySpins mission with target >= 1 is never completed nor claimable |
| Missions.ClaimDisablesButton | components/Missions.tsx:41-70 | claiming a claimable mission pays its reward and disables its button |
| Missions.CompletionIsStable | components/Missions.tsx:16-40 | prepending new draws never undoes completion |
| Profile.StatsOf | components/Profile.tsx:26-28 | legendary + rare <= total |
| Profile.LuckScore | components/Profile.tsx:30 | 0 with no draws; between 50 and 100 otherwise |
| Profile.LuckScoreExtremes | components/Profile.tsx:30 | an all-common history scores 50, an all-legendary one 100 |
| Profile.Title | components/Profile.tsx:32-36 | no draws gives '萌新报到'; otherwise >90 '天选之子', >80 '运气不错', >60 '普通玩家', else '初级非酋' |
| Profile.FilteredHistory | components/Profile.tsx:39-42 | 'all' is the history; a rarity keeps exactly its entries, with multiplicities, as many as its count |
| Profile.FilterKeepsOrder | components/Profile.tsx:41 | the filter keeps the original order |
| Inventory.CountsOf | components/UserInventory.tsx:19-23 | the three counts sum to the history length |
| Inventory.FilteredMatchesCounts | components/UserInventory.tsx:14-23 | 'all' is the history; a rarity tab lists exactly that rarity's entries, as many as its count |
| Inventory.CountsGrow | components/UserInventory.tsx:19-23 | counts over new draws followed by old ones add up |

## Left out

- Randomness: `Math.random` in the selector and the history ids is replaced by `Roll` values and an id function. The random pick index is taken modulo the candidate count.
- Selector.Scan: real-valued random positions and fractional weights are not modelled. Weights are integers, and the position is the integer part of the random value, which selects the same slot when the weights are integers.
- Time and animation: `setTimeout` scheduling, the `speed *= 1.15` deceleration and the tick sound. Ticks are a loop (`RunSpin`).
- `finishSpin` reads `Date.now()` twice per entry, once for the id and once for the timestamp. The model uses one clock reading `now` for all of them.
- Audio, confetti, toasts and all rendering. The AI commentary request after a single draw is a network call and is not modelled.
- Persistence: local-storage loading and saving of prizes, history, settings and user state, and the JSON parse fallback of the user store. The store is an in-memory map.
- CSV export and "clear all data" in the admin panel (DOM download, storage clear, reload).
- `handleSaveProfile` on the profile page (it only calls `saveUserData` and reloads).
- AdminPanel.MovePrize: assumes an index inside the list (the list rows that call it are not part of this model); `splice` on an index past the end, which would insert `undefined`, is not modelled.
- Auth.Merge: a patch key present with the value `undefined` is not distinguished from a missing key.
- Auth.CurrentUser: a session holding an inherited Object.prototype name, for which `db[name] || null` would return a non-profile, is not modelled; `InheritedNeverStored` shows login and register never put one there.
- Auth.Saved: a save under an inherited Object.prototype name, which the truthy `db[username]` lets through and which would store a partial profile, is not modelled; such a name changes nothing here.
- Missions.ProgressPercent: exact rationals instead of IEEE doubles, so values such as 7/50*100 are exact where the page shows 14.000000000000002. The bar is display only; completion uses the integer comparison `current >= target`.
- Profile.LuckScore: floating-point rounding of `(legendary*50 + rare*10)/total*10` is not modelled. The score uses exact integer division, `floor((500L + 100R)/total) + 50`, capped at 100.
- A pity threshold entered as a non-number (`parseInt` giving NaN) is not modelled; the threshold is an integer.
- Game.Engine.HandleSpin: admin edits of the prize list and the pity threshold reaching the running app are not modelled; both are fixed for the Engine's lifetime.
- Game.Engine.HandleClaimMission: two claims queued before a re-render, which both read the old claimed list, are not modelled; each claim sees the state the previous one left.
- `spinLoop` also reads a stale `isBatchSpin`, but only to choose the deceleration, which is not modelled.
- Game.Engine.FinishSpinAsWritten: only the as-written `finishSpin` is given; the tick loop uses the corrected `FinishSpin`.
- Leaderboard, Shop, Background, About, AuthForms, MachineGrid and ResultModal are display components and are not part of this model. services/geminiService.ts is not part of this model.

## Findings

| source | as written | input that shows it | evidently intended | confidence | as-written member | corrected member |
|---|---|---|---|---|---|---|
| App.tsx:286, 300, 313, 322, 331 | `spinLoop` and `finishSpin` are closures of the render in which the draw button was clicked. `finishSpin` maps and counts that render's `results`, which is always `[]` at Idle, not the results `handleSpin` has just queued. | Any accepted draw: a single draw from Idle with a one-prize list. After the spin, the history and coin balance are unchanged although one prize is shown. | Each drawn prize is prepended to the history and 10 coins per prize are credited. | high, not executed | Game.Engine.FinishSpinAsWritten | Game.Engine.FinishSpin |
