# tote-bot prize engine and draw lifecycle, in Dafny

tote-bot runs a football-pool ("tote") draw over Telegram. An admin builds a
slate of events. Users buy tickets that pick one or more outcomes (1 / X / 2)
per event and pay for them in TON or USDT on TON. When the draw is settled,
each user's best ticket is scored against the results. A payout formula then
splits the bank among the winners.

This project models that core:

- `settlement.dfy`, module `Settlement`: the prize-distribution engine of
  `settlement.ts`. It has three formulas behind one dispatcher:
  - equal share among the users at the maximum hit count;
  - tiered weights;
  - a fixed prize table.

  Money is integer minor units (10^-6), as the engine's `bigint` arithmetic
  uses. `TieredWeights` and `FixedTable` keep the source's loops. Each is
  proved equal to a specification function (`TieredWeightsResult`,
  `FixedTableResult`), and the lemmas about those functions state the
  conservation, bounds and per-level properties.
- `tickets.dfy`, module `Tickets`: the parts of `bot.ts` that price and score
  one ticket:
  - the combination counter (strict policy) and the two stake calculators;
  - the hit counter;
  - the betting `Session` class, whose `Toggle` edits one event's selection
    in place.
- `lifecycle.dfy`, module `Lifecycle`: the persisted `Store` class and the
  admin handlers that mutate it:
  - the draw's status machine (setup → open → closed → settled → new draw in
    setup);
  - the settle step: per-user best ticket, and the bank from paid invoices;
  - the event editor's void toggle, result setting and event adding;
  - the new-draw reset.
- `escape.dfy`, module `Escape`: the HTML escaper `esc` and the CSV field
  quoter `escCsv`, each paired with the decoder a reader would apply.
- `wrappers.dfy`, module `Wrappers`: `Option` and `Result`.

An exception thrown by the source becomes a `Failure` of a `Result`.

## Model

| member | source | states |
|---|---|---|
| Settlement.PrizePool | settlement.ts:44-45 | The pool is `totalBank * pct` rounded half-up to a whole minor unit, which is `Math.round` on the scaled product. |
| Settlement.PrizePoolWithinBank | settlement.ts:44-45 | With a percentage of at most 100 %, the rounded pool never exceeds the bank. |
| Settlement.WinnersSpec | settlement.ts:46 | The winner filter keeps exactly the entries whose hits equal the level, and is no longer than its input. |
| Settlement.MaxHitsEqualShare | settlement.ts:43-80 | No entry at `maxHitsInDraw`: no payouts, and the leftover is the whole pool. Otherwise one payout per winner, in input order, each with that winner's id, wallet, hits == max and `floor(pool / n)`. Payouts plus leftover equal the pool, with `0 <= leftover < n`. |
| Settlement.LevelsSpec | settlement.ts:91 | The eligible levels are exactly the weight keys `h` with `minHits <= h <= maxHitsInDraw`, in ascending order (the order `Object.keys` gives integer keys). |
| Settlement.SmallestKey | settlement.ts:85 | The default `minHits` is the smallest weight key. |
| Settlement.ResolveMinHits | settlement.ts:85 | `minHits` is the configured value when given, otherwise the smallest weight key, and absent when there are no weights. |
| Settlement.TieredWeights | settlement.ts:82-134 | The loops over levels and groups return exactly `TieredWeightsResult`: an error when `minHits` resolves to 0; no payouts and leftover == pool when the weighted winner total is `<= 0`; otherwise the pushed payouts and the leftover clamped at 0. |
| Settlement.TieredSums | settlement.ts:97-122 | The pushed payouts sum to the `distributedMinor` accumulator, and that accumulator is `unit * totalWeight`. |
| Settlement.PayLevels | settlement.ts:113-122 | The level loop pushes exactly `TieredPayouts` and accumulates exactly `TieredDistributed`, the specification functions that `TieredSums` and `TieredAtLevel` describe. |
| Settlement.PayGroup | settlement.ts:117-119 | Pushing one payout per group member appends exactly one `(userId, wallet, share, hits)` entry per member, in group order. |
| Settlement.TieredAtLevel | settlement.ts:113-120 | In the tiered payout list, the entries at level `h` are one payout of `unit * weight[h]` per winner at `h` if `h` is a level, and none otherwise. |
| Settlement.TieredWeightsLevels | settlement.ts:91-120 | The payouts at any level `h` are one payout of `floor(pool / totalWeight) * weight[h]` per user with `h` hits when `h` is eligible and the total weight is positive. There are none otherwise. |
| Settlement.TieredPayoutsLevels | settlement.ts:113-120 | Every tiered payout's hits are one of the levels iterated. |
| Settlement.TieredWeightsEligible | settlement.ts:91-120 | Only users whose hit count is an eligible level are paid, and each payout copies an input entry's id, wallet and hits. |
| Settlement.TieredWeightsConservation | settlement.ts:97-131 | With a positive total weight, payouts plus leftover equal the pool and `0 <= leftover < totalWeight`, so the clamp to 0 never fires. Otherwise there are no payouts and leftover == pool. |
| Settlement.TieredWeightsNonNegative | settlement.ts:116-119 | With non-negative weights every payout is non-negative. |
| Settlement.FixedSums | settlement.ts:151-161 | The fixed-table payouts sum to the `distributedMinor` accumulator. |
| Settlement.FixedAtLevel | settlement.ts:151-161 | The payouts over levels `0..n-1` at level `h` are the whole prize per winner when `h < n`, the level has winners and the prize is positive. There are none otherwise. |
| Settlement.FixedTableLevels | settlement.ts:147-161 | Each level `0..maxHitsInDraw` with winners and `fixed[h] > 0` pays every winner the whole `fixed[h]`, unsplit. Every other level pays nobody. |
| Settlement.FixedPayoutsAt | settlement.ts:151-161 | Every payout over levels `0..n-1` is at a level with winners and a positive prize, pays that level's whole prize and copies an input entry's id, wallet and hits. |
| Settlement.FixedTableEligible | settlement.ts:147-161 | Only users whose hit count is a level `0..maxHitsInDraw` with a positive prize are paid, each exactly `fixed[hits]`, and each payout copies an input entry. |
| Settlement.FixedTableConservation | settlement.ts:142-170 | The pool is `totalBank`, and leftover == `max(0, pool - distributed)`. Payouts plus leftover equal the pool exactly when the table does not overspend. |
| Settlement.FixedTableCanOverspend | settlement.ts:163-170 | Concrete case: a bank of 50 and a prize of 100 at 2 hits pays 100, more than the pool, with leftover 0. |
| Settlement.FixedTable | settlement.ts:136-173 | The level loop returns exactly `FixedTableResult`. |
| Settlement.Payouts | settlement.ts:175-180 | Each formula name routes to its formula, and the result keeps that name and `maxHitsInDraw`. The call fails exactly for an unknown name (`UnknownFormula`) or for tiered weights whose `minHits` resolves to 0. |
| Settlement.CalculatePayouts | settlement.ts:175-180 | The dispatcher returns exactly `Payouts`. |
| Tickets.CountCombinations | bot.ts:78-87 | The loop returns `Combinations`: 0 for an empty slate or any empty selection, otherwise the product of the selection lengths. |
| Tickets.CombinationsZero | bot.ts:78-87 | The count is 0 exactly when the slate is empty or some selection is empty. |
| Tickets.ProductPositive | bot.ts:80-86 | The product of non-empty selections' lengths is positive. |
| Tickets.CombinationsMonotone | bot.ts:78-87 | Adding an outcome to one selection never lowers the count. |
| Tickets.CombinationsExamples | bot.ts:78-87 | `[[0],[1]]` gives 1, `[[0,1],[1]]` gives 2, and a slate with an empty selection gives 0. |
| Tickets.CalcStakeRub | bot.ts:89-92 | The stake is combinations × the ruble stake, and 0 for an incomplete ticket. |
| Tickets.CalcStakeCrypto | bot.ts:94-97 | The stake is combinations × the USDT stake when the currency is USDT_TON and × the TON stake otherwise, and 0 for an incomplete ticket. |
| Tickets.PlayedCount | bot.ts:301-304 | `playedEventsCount` is at most the number of events. It is 0 exactly when no event is played, and equals the number of events exactly when every event is played. |
| Tickets.ComputeHits | bot.ts:306-316 | The loop returns `Hits`: it counts event `i` only when it has a result, is not void and the selection at `i` (empty if missing) contains the result. |
| Tickets.HitsAtMostPlayed | bot.ts:301-316 | A ticket's hits never exceed `playedEventsCount`. |
| Tickets.HitsAfterEventChange | bot.ts:306-316 | Replacing one event changes the hits only by that event's own hit. |
| Tickets.VoidingNeverIncreasesHits | bot.ts:1510-1511 | Replacing an event with a void one lowers the hits by exactly that event's lost hit, so never raises them. |
| Tickets.HitsExamples | bot.ts:306-316 | Two played events with matching single picks score 2, and a double pick still counts once. |
| Tickets.IndexOf | bot.ts:885 | `indexOf` gives the first position of the outcome, or -1 when it is absent. |
| Tickets.InsertSpec | bot.ts:891-892 | Pushing a new outcome and sorting keeps the selection strictly sorted and adds exactly that outcome. |
| Tickets.PushSorted | bot.ts:891-892 | The push-and-sort returns the sorted insertion `Insert`. |
| Tickets.ToggledSpec | bot.ts:885-893 | A toggle keeps the selection sorted and duplicate-free and flips membership of that outcome only. |
| Tickets.ToggleSelection | bot.ts:885-893 | The `indexOf`/`splice`/push-and-sort step returns `Toggled`, which `ToggledSpec` and `ToggleTwice` describe. |
| Tickets.ToggleTwice | bot.ts:885-893 | Toggling the same outcome twice restores the selection. |
| Tickets.SortedUnique | bot.ts:885-893 | Two strictly sorted selections with the same outcomes are equal. |
| Tickets.Padded | bot.ts:884-894 | Writing past the end extends the list with empty selections and keeps every existing one. |
| Tickets.Session.constructor | bot.ts:851-853 | A new session holds one empty selection per event of the slate. |
| Tickets.Session.Toggle | bot.ts:864-894 | An index outside `min(EVENTS_COUNT, events.length)` leaves the session unchanged. Otherwise only that event's selection changes, to the toggled one. Every selection stays sorted and duplicate-free. |
| Lifecycle.DrawTicketsSpec | bot.ts:1676 | The settle step's tickets are exactly the paid tickets whose id starts with `<drawId>_`. |
| Lifecycle.AggregateBestTicket | bot.ts:1678-1690 | There is one entry per user with a ticket of the draw, and no user appears twice. Each entry carries the user's stored wallet (or `""`) and the maximum hits over that user's tickets, attained by one of them. |
| Lifecycle.AggregateLookup | bot.ts:1678-1690 | A user has an entry iff they have a ticket. That entry's hits are the best over their tickets. |
| Lifecycle.LookupUpsert | bot.ts:1682-1688 | `Map.set` on the running map: the user's entry becomes the larger of the old and new hits, and every other user's entry is unchanged. |
| Lifecycle.UpsertDistinct | bot.ts:1682-1688 | The running map never holds two entries for one user. |
| Lifecycle.AggregateHits | bot.ts:1678-1690 | The loop over the tickets returns exactly `Aggregate`. |
| Lifecycle.ComputeBank | bot.ts:1693-1699 | The `totalBank` loop returns `Bank`: the sum of invoice amounts over tickets whose invoice exists, is paid and is in the configured currency. |
| Lifecycle.BankAppend | bot.ts:1693-1699 | The bank of two ticket lists is the sum of their banks. |
| Lifecycle.BankCountsFundedTickets | bot.ts:1693-1699 | Each ticket adds its invoice amount if funded and nothing otherwise, wherever it stands. |
| Lifecycle.SettleIgnoresMissingResults | bot.ts:1665-1673 | A closed draw settles under equal share or the fixed table whether or not every non-void event has a result. `maxHitsInDraw` is the number of played events. |
| Lifecycle.SettleOnlyFromClosed | bot.ts:1665-1669 | Settling succeeds iff the draw is closed and the formula succeeds. A settled draw is refused. |
| Lifecycle.FindEvent | bot.ts:1508 | `find` by `idx` gives the first event with that idx, or none when no event has it. |
| Lifecycle.VoidToggleHits | bot.ts:1510-1511 | Voiding an event lowers each ticket's hits by exactly the lost hit. Restoring a voided event, whose result was cleared, leaves all hits unchanged. |
| Lifecycle.FindIndexed | bot.ts:1591-1597 | In a slate numbered by `ae:add`, the event found for `idx` is the one at position `idx`. |
| Lifecycle.ClearTicketFlags | bot.ts:1812-1821 | Every user is kept with their wallet, and their `hasTicketForCurrent` is false. |
| Lifecycle.Store.constructor | bot.ts:211-217 | The initial store has draw 1 in setup with no events, no tickets, no users, no payments, and `nextTicketSeq` 1. |
| Lifecycle.Store.Start | bot.ts:1622-1638 | It succeeds only from setup with exactly `EVENTS_COUNT` events, and then moves to open. Otherwise the store is unchanged. |
| Lifecycle.Store.Close | bot.ts:1645-1654 | It succeeds only from open, and then moves to closed. Otherwise the store is unchanged. |
| Lifecycle.Store.Settle | bot.ts:1661-1725 | It returns `SettleOutcome`. On success the status becomes settled and the result is stored. A wrong status or a formula error leaves the store unchanged. Tickets, users and payments are never touched. |
| Lifecycle.Store.NewDraw | bot.ts:1760-1821 | It succeeds only from settled. It then makes draw `id + 1` in setup with no events and no settlement, empties tickets and payments, sets `nextTicketSeq` to 1 and clears every user's ticket flag. Otherwise nothing changes. |
| Lifecycle.Store.ToggleVoid | bot.ts:1504-1512 | It flips `isVoid` of the first event with that idx and clears its result when voiding. An unknown idx changes nothing. Numbering is preserved. |
| Lifecycle.Store.SetResult | bot.ts:1491-1498 | It sets or clears the result of the first event with that idx. An unknown idx changes nothing. |
| Lifecycle.Store.RequestAddEvent | bot.ts:1530-1536 | A new event is accepted iff the slate has fewer than `EVENTS_COUNT` events. |
| Lifecycle.Store.AppendEvent | bot.ts:1590-1597 | The new event is appended with `idx == old length`, no result and not void. The slate stays numbered by position. |
| Escape.EscIsPerCharacter | bot.ts:295-297 | The three sequential replacements equal escaping each character on its own. |
| Escape.Esc | bot.ts:295-297 | `esc` equals escaping each character on its own. Its output has no `<` or `>`, and decoding the entities gives back the input. |
| Escape.EscCsv | bot.ts:1342 | A field is quoted exactly when it contains `"`, `,` or a newline, and is otherwise unchanged. Undoubling the quotes of a quoted field gives back the original. |

## Left out

- ton.ts is not part of this model. It covers TON and jetton network calls, wallet signing and transaction scanning. It is foreign-library I/O with floating-point tolerances.
- Floating point:
  - Amounts are integer minor units throughout.
  - `toMinor`/`fromMinor` are not modelled.
  - `totalBank * prizePoolPct` is an exact ratio rounded half-up.
  - The float error of the real multiplication is not captured.
  - Fixed-table prizes and invoice amounts are taken already in minor units.
- Settlement.MaxHitsEqualShare, Settlement.TieredWeights and Settlement.FixedTable: `formulaParams` is the typed `Params` record, not arbitrary JSON. These cases are therefore not modelled:
  - the `typeof weights !== 'object'` and `typeof fixed !== 'object'` checks;
  - a non-integer weight, whose `BigInt(weight)` throws;
  - a non-numeric prize, whose `toMinor` rounds to `NaN` and throws. A fractional prize in major units is representable, because `toMinor` rounds to minor units first; the model takes prizes already in minor units;
  - a negative `prizePoolPct` (the percentage is a non-negative ratio).
- Settlement.Payouts: a `minHits` given as `NaN` or `""` (falsy values other than 0) cannot occur in the typed record, so only `minHits` resolving to 0 is an error. An empty weights object gives `Math.min()` = Infinity, which is truthy; it is modelled as "no eligible level".
- Tickets.Padded: `session.selections[eventIdx] = sel` past the end leaves JavaScript holes, and the model fills them with empty selections. Every reader of a selection list reads a hole as `[]` (`|| []`), so behaviour is the same.
- Tickets.Session.Toggle: JavaScript's default `sort()` compares as strings. For the outcomes 0, 1 and 2 this equals numeric order, which is what the model uses.
- Lifecycle.Store.Settle: the stored settlement is the engine's result itself, not the record `mapSettlementResultToBotSettlement` builds from it. That record differs in these ways, none of which the model captures:
  - `totalPlayed` is the number of the draw's tickets, paid or not, not the number of played events;
  - `prizePool` is kept (as `bankUSDT`) only when the currency is `USDT_TON`;
  - `leftover` is dropped, while the model's stored result keeps it;
  - TON payout amounts are stored under `prizeRUB`, and `prizeUSDT` only under `USDT_TON`;
  - the settlement date, the usernames and the ruble bank (passed as 0) are not modelled.
- Settle does not check that every non-void event has a result. The model follows the code, and `Lifecycle.SettleIgnoresMissingResults` states it.
- `ae:add`:
  - The limit check runs when the button is pressed (`RequestAddEvent`).
  - The append runs when the admin's title message arrives (`AppendEvent`), without re-checking the limit.
  - The admin text-action map that links the two is not modelled.
- Telegram rendering, keyboards, pagination, `safeEditMessage`, admin checks and logging are not modelled. They are UI.
- `loadStore`/`saveStore`, history archiving and other file I/O are not modelled. Only the store `loadStore` creates when there is no file is modelled (`Lifecycle.Store.constructor`).
- Payment watchers and TON auto-check timers are asynchronous polling and are not modelled.
- `play:auto` uses `Math.random` and is not modelled.
- Dates, timestamps and `getAllTicketsSorted` are not modelled.
- The `.env` and JSON parsing of the formula parameters is not modelled. The configuration is the `Config` record.
- Ticket purchase and invoice creation (`genInvoice`, the `nextTicketSeq++` id) are not modelled. Tickets and payments are inputs of the settle step.
