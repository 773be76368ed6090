# Shares return calculator — a Dafny model

The calculator is one page. The user types a buy price and a sell price in
pence, a buy share count and a sell share count, and ticks a box to include
stamp duty. From these it derives five figures: the stamp duty (0.5% of the
buy order), the buy total, the sell total, the return and the return as a
percentage. This project models the two halves of its logic in
`src/pages/index.js`:

- **The input controller** (`controller.dfy`). The page's state cells are the
  fields of class `Controller.Calculator`. Its methods `HandleCalcChange` and
  `Reset` are the page's change handler and reset button. Each method is proved
  against a pure function on a `Form` record: `AfterChange` or `AfterReset`.
  The properties are proved about those functions. The sell share count
  follows the buy share count until the user edits it (cascade). An edit of
  the sell share count is capped at the buy share count (clamp). Each input
  changes only its own cells. Reset empties the four text cells. The
  "sell shares edited" flag is never cleared. Over any sequence of actions
  (`Replay`), the flag stays set once set, and the mirror invariant holds.
- **The derivation engine** (`derivation.dfy`). `Step` is one run of the
  page's effect. It reads the previous stamp duty and totals, because every
  setter in the effect sees the cells as they were before the run.
  `Recompute` gives the settled figures. `EffectSettles` proves two things:
  three runs reach `Recompute` from any previous figures, and `Recompute` is
  a fixed point of `Step`. `SettledIsOnlyFixedPoint` proves that React
  stops re-running only there: the dependency list at line 203 leaves out the
  percentage, and a run that changes none of the four other derived cells
  has produced the settled figures. `RunEffect` in the class is one run of the effect on the fields.

Arithmetic is exact. An entered value is `''` (`Unset`) or a real number
(`Values.Entry`). In arithmetic and comparisons `''` counts as 0, as in
JavaScript (`Values.Arith`). A figure printed by `toFixed(2)` is held as a
whole number of hundredths (`Values.FormatCurrency`). Monetary figures are
therefore in pence, and the percentage is in hundredths of a percent.
`toFixed` rounds the magnitude half up and then restores the sign, so ties
round away from zero. The model does the same; it does not floor `x*100 + 1/2`.

Division by zero is not excluded by a precondition. The source divides by the
share count ratio (line 189) and by the buy price (line 200). JavaScript yields
an infinity or NaN there, and the page shows it. The model yields
`Fixed2.NonFinite` in those cases. A finite total divided by an infinity is 0:
`ReturnFigure` follows this when the sell share count is 0 and the buy share
count is not.

The comment at `src/pages/index.js:120` says the user cannot sell more shares
than they bought, but the code promises less. Line 121 only caps the value at
the moment the sell share count is edited. A later edit of the buy share count
can drop below it (`Controller.OversellAfterLaterBuyEdit`). The model follows
the code.

`reset` (lines 140-145) empties the four text cells and touches neither flag
(`Controller.AfterReset`). The "sell shares edited" flag is kept, so after a
reset an edit of the buy share count no longer copies into the sell share
count. The stamp duty flag is kept too.

Files: `values.dfy`, `derivation.dfy`, `controller.dfy`, `scenarios.dfy` (the
form's placeholder trade worked through).

## Model

| member | source | states |
|---|---|---|
| `Values.Arith` | src/pages/index.js:121 | definition only, no contract of its own: the number `''` or a parsed value stands for in the comparisons and arithmetic at lines 70, 121, 167, 189 and 200 (`''` is 0) |
| `Values.FormatCurrency` | src/pages/index.js:81 | the printed two-decimal figure is within half a hundredth of the value and never has the opposite sign |
| `Values.FormatWhole` | src/pages/index.js:176 | a value that already has two decimals prints as itself, so re-rounding a sum of figures is exact |
| `Values.FormatNegate` | src/pages/index.js:81 | rounding is symmetric: negating the value negates the printed figure |
| `Values.FormatMonotone` | src/pages/index.js:81 | rounding preserves order |
| `Derivation.ToPounds` | src/pages/index.js:70 | the result is a hundredth of a positive price, and 0 for an unset, zero or negative price |
| `Derivation.OrderSubtotal` | src/pages/index.js:167 | an order subtotal is 0 when the price is unset or not positive, else within half a penny of price × shares |
| `Derivation.WholeOrderIsExact` | src/pages/index.js:167 | a whole price in pence times a whole share count gives exactly price × shares pence |
| `Derivation.StampDuty` | src/pages/index.js:182-183 | the duty is within half a penny of 0.5% of price × shares, and 0 without a positive price; it does not depend on the tax flag |
| `Derivation.BuyTotal` | src/pages/index.js:172-177 | with the tax flag the buy total is exactly subtotal + duty, otherwise the subtotal |
| `Derivation.ReturnFigure` | src/pages/index.js:189 | with both share counts non-zero, the return is within half a penny of sellTotal − buyTotal × sellShares / buyShares; if all shares are sold it is exactly sellTotal − buyTotal; a zero buy share count gives NaN/Infinity; a zero sell share count gives the sell total |
| `Derivation.ReturnValue` | src/pages/index.js:186-190 | the return is 0 while the sell price is unset; with one it is NaN/Infinity when the buy share count is 0, the sell total when the sell share count is 0, within half a penny of sellTotal − buyTotal × sellShares / buyShares when both counts are non-zero, and exactly sellTotal − buyTotal when all shares are sold |
| `Derivation.Cost` | src/pages/index.js:200 | definition only, no contract of its own: `incStampDuty ? buyPrice * 1.005 : buyPrice`; its use is stated by `PercentFigure` and `SettledPercent` |
| `Derivation.PercentFigure` | src/pages/index.js:200 | the result is non-finite exactly when the buy price is 0; otherwise it is within half a hundredth of 100 × (sell − cost) / buy percent; for a positive buy price its sign follows sell price versus the duty-raised buy price |
| `Derivation.ReturnPercent` | src/pages/index.js:193-201 | the percentage is 0 while the buy total is 0.00; otherwise it is NaN/Infinity when the buy price is 0, else within half a hundredth of 100 × (sell − cost) / buy percent; for a positive buy price it is positive (negative) only when the sell price is above (below) cost, and a sell price at or above (at or below) cost gives at least (at most) 0 |
| `Derivation.Step` | src/pages/index.js:154-202 | definition only, no contract of its own: one run of the effect, each setter reading the cells as they were before the run; `RunEffect` is proved against it, and `EffectSettles` and `SettledIsOnlyFixedPoint` state how it settles |
| `Derivation.Recompute` | src/pages/index.js:154-203 | definition only, no contract of its own: the settled figures; `EffectSettles`, `SettledIsOnlyFixedPoint`, `TaxInclusion`, `SettledReturn` and `SettledPercent` state its properties |
| `Derivation.EffectSettles` | src/pages/index.js:154-203 | from any previous figures three runs of the effect reach the settled figures, and a further run changes nothing |
| `Derivation.SettledIsOnlyFixedPoint` | src/pages/index.js:203 | once a run leaves the four cells in the dependency list (duty, buy total, sell total, return) unchanged, as React requires before it stops re-running, that run has produced the settled figures |
| `Derivation.TaxInclusion` | src/pages/index.js:172-183 | stamp duty and the sell total are the same with the tax flag on or off, and the buy total with duty exceeds the buy total without duty by exactly the duty |
| `Derivation.SettledReturn` | src/pages/index.js:186-190 | the settled return is 0 with no sell price and NaN/Infinity with no buy shares; a full sell gives exactly sellTotal − buyTotal; otherwise it is the proportional figure of the settled totals |
| `Derivation.WholeRoundTrip` | src/pages/index.js:167-190 | with whole prices, all shares sold and no duty, the return is exactly (sell − buy price) × shares pence |
| `Derivation.SettledPercent` | src/pages/index.js:193-201 | the settled percentage is always a number; it is 0 while the buy total is 0; a non-zero buy total implies a positive buy price; a positive (negative) percentage implies the sell price is above (below) the duty-raised buy price; with a non-zero buy total, a sell price at or above (at or below) that cost gives a percentage of at least (at most) 0 |
| `Controller.Clamp` | src/pages/index.js:121 | the capped value never exceeds the buy share count; it is the entered value when that is within the cap, else the buy share count |
| `Controller.AfterChange` | src/pages/index.js:92-133 | cascade: a buy share edit sets the sell share count to it until the flag is set, and leaves it alone afterwards; clamp: a sell share edit sets the flag and sets the sell share count to the entered value when it is within the buy share count, else to the buy share count; price and tax inputs change only their own cell; an unknown name changes nothing; the flag is never cleared and the mirror invariant is kept |
| `Controller.AfterReset` | src/pages/index.js:140-145 | the four text cells become unset, and both flags are kept |
| `Controller.ResetClearsFigures` | src/pages/index.js:136-145 | after a reset the settled stamp duty, the totals, the return and the percentage are all 0 |
| `Controller.FlagStaysSet` | src/pages/index.js:119-124 | once the sell share count has been edited, no sequence of actions clears the flag |
| `Controller.MirrorHolds` | src/pages/index.js:104-113 | after any sequence of actions, the sell share count equals the buy share count while it has not been edited |
| `Controller.OversellAfterLaterBuyEdit` | src/pages/index.js:104-124 | buying 500, selling 300 and then buying 100 leaves 300 sell shares against 100 bought |
| `Controller.ClampAgainstUnset` | src/pages/index.js:121 | a positive sell share edit while the buy share count is unset leaves the sell share count unset |
| `Controller.Calculator.constructor` | src/pages/index.js:33-57 | at mount every text cell is empty, both flags are false and the derived cells are 0 |
| `Controller.Calculator.HandleCalcChange` | src/pages/index.js:92-133 | the primary cells become `AfterChange` of the old ones, and the derived cells are untouched |
| `Controller.Calculator.Reset` | src/pages/index.js:140-145 | the primary cells become `AfterReset` of the old ones, and the derived cells are untouched |
| `Controller.Calculator.RunEffect` | src/pages/index.js:154-202 | the derived cells become one `Step` from the old primary and derived cells, and the primary cells are untouched |
| `Scenarios.UntaxedPlaceholder` | src/pages/index.js:216-231 | 150p × 500 bought and 200p × 500 sold without duty: 750.00, 1000.00, return 250.00, 33.33%, duty 3.75 |
| `Scenarios.TaxedPlaceholder` | src/pages/index.js:216-236 | the same trade with duty: duty 3.75, buy total 753.75, return 246.25, 32.83% |
| `Scenarios.HalfSoldPlaceholder` | src/pages/index.js:186-190 | selling 250 of the 500 shares: sell total 500.00, return 125.00 |
| `Scenarios.NoBuyPrice` | src/pages/index.js:193-197 | without a buy price the buy total and the percentage are 0, whatever the share counts, the sell price and the tax flag |

## Left out

- Parsing: `parseFloat` of the input text is not modelled. An event carries the already parsed `Entry`. Malformed text giving NaN is out of scope.
- Floating point: `toFixed` rounding of binary doubles is modelled as exact decimal rounding. For example, real JavaScript prints 1.005 as "1.00".
- "-0.00": `toFixed` prints a tiny negative value as "-0.00", and that string fails the `"0.00"` guard at line 197. The model compares the rounded value with zero. This differs only for negative share counts.
- The number 0 at mount: `buyTotal` starts as the number 0, not the string "0.00". So the first run of the effect computes a NaN percentage in JavaScript, where the model gives 0. The settled figures are the same.
- `Fixed2.NonFinite` stands for NaN, Infinity and -Infinity alike. Which of the three appears is not modelled.
- The change handler returns `false` for an unknown input name. React ignores that value, and the model does not return it.
- React's scheduling and batching of `useState`/`useEffect` are not modelled. The model gives one run of the effect (`Step`, `RunEffect`) and the settled result (`Recompute`).
- The rendered form and table, the SEO component, the show/hide details toggle (`extraDetails`), `src/components/base/layout.js`, `header.js`, `footer.js` and `gatsby-config.js` hold no calculation and are not part of this model.
- Derivation.SettledPercent: the converse of the sign implications holds only non-strictly (a higher sell price gives a percentage of at least 0, not above 0). A gain smaller than 0.005% prints as 0.00, so "positive exactly when the sell price is higher" does not hold. `ReturnPercent` and `PercentFigure` state the same.
