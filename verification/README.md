# Inventory ledger of the stock page, in Dafny

The page tracks five sizes of one product. For each it shows the current
stock, an input for the quantity consumed and an input plus a button for a
quantity received. One button at the bottom deducts every consumed
quantity at once; each "add" button adds the received quantity of its own
product straight away. A second button switches between a light and a dark
display, and the choice is kept in browser storage.

The model has four modules:

- `Wrappers` (`wrappers.dfy`): the `Option` type.
- `Coercion` (`coercion.dfy`): `Number(value) || 0`, the coercion both
  inputs apply to the typed text. `NumberOf` reads integer text: the empty
  text is 0, an optionally signed run of decimal digits is its value, and
  anything else is NaN (`None`). `Coerce` turns NaN into 0, and
  `AmountOf` is the two composed.
- `Inventory` (`inventory.dfy`): the ledger. Its pure part is `Amount` (a
  missing entry reads as 0), `Clamp` (`Math.max(x, 0)`), the seed table
  `InitialStock`, and the reference definitions `Deducted` (the batch
  commit) and `Restocked` (the single-product commit). `ApplyUsage` is the
  copy-and-loop body of the batch commit. It visits the staged products in
  an arbitrary order and is proved equal to `Deducted`, so the result does
  not depend on key order. The class `Ledger` holds the three tables
  `stock`, `usage` and `incoming`, with one method per event handler.
  `Session` is a client that replays a short use of the page against the
  method contracts.
- `Theme` (`theme.dfy`): the display flag, its toggle, and the
  "dark"/"light" string written to and read from storage.

Each handler is one atomic step on the three tables.

## Negative amounts

Only the deduction is clamped (src/App.jsx:48). A typed negative number
survives `Number(value) || 0` (`Number("-300") || 0` is -300), so it is
staged as it is. A negative restock then lowers the level and can take it
below 0 (src/App.jsx:56), and a negative consumption raises the level when
committed. `NegativeRestockLowersStock` and `NegativeUsageRaisesStock`
state both, and `Session` replays the first through the handlers. Every
non-negativity property of the restock is conditional on a non-negative
staged amount.

## Model

| member | source | states |
|---|---|---|
| `Coercion.DecimalRoundTrip` | src/App.jsx:37-43 | typing the decimal text of any whole number, negative ones included, stages exactly that number |
| `Coercion.EmptyStagesZero` | src/App.jsx:38 | an emptied input stages 0 |
| `Coercion.UnparseableStagesZero` | src/App.jsx:37-43 | text `Number` reads as NaN stages 0, the same amount as typing "0", for consumption and restock alike |
| `Coercion.NumberOf` | src/App.jsx:37-43 | `Number` on integer text: the empty text reads as 0; the text is NaN exactly when some character is not a digit, other than a leading sign followed by more text; a leading "-" gives a value at most 0, otherwise at least 0 |
| `Coercion.Coerce` | src/App.jsx:38 | the "or 0" applied to what `Number` returned: NaN becomes 0, every number is kept |
| `Coercion.AmountOf` | src/App.jsx:37-43 | the staged amount is the number `Number` read from the text, or 0 when it read NaN |
| `Coercion.StrayCharacterStagesZero` | src/App.jsx:38 | in the integer reading of `NumberOf`, a non-digit after the first character makes the text unreadable, so it stages 0 |
| `Inventory.Amount` | src/App.jsx:48-56 | the "or 0" read of a table entry: a missing entry reads as 0, a present one as its value |
| `Inventory.Deducted` | src/App.jsx:46-49 | the batch commit: the stock gains every staged product; each staged product becomes max(old level, or 0 if absent, minus staged amount, 0), so at least 0; unstaged products keep their level |
| `Inventory.Restocked` | src/App.jsx:54-56 | the single-product commit: only the chosen product changes, to its level (or 0) plus its staged restock (or 0); at most that one key is added |
| `Inventory.Clamp` | src/App.jsx:48 | the clamped value is at least 0 and at least its argument, and is either the argument or 0 |
| `Inventory.InitialStock` | src/App.jsx:5-11 | the seed table holds exactly the five product sizes, all with non-negative levels |
| `Inventory.ApplyUsage` | src/App.jsx:46-49 | the copied stock gains every staged product; each staged product becomes max(old level, or 0 if absent, minus staged amount, 0); unstaged products keep their level; the loop's result equals `Deducted` whatever order the keys are visited in |
| `Inventory.Ledger.constructor` | src/App.jsx:15-17 | the page starts with the seed stock and nothing staged |
| `Inventory.Ledger.HandleChange` | src/App.jsx:37-39 | the typed consumption, coerced, replaces the staged one for that product only; stock and staged restock are unchanged |
| `Inventory.Ledger.HandleIncomingChange` | src/App.jsx:41-43 | the typed restock, coerced, replaces the staged one for that product only; stock and staged consumption are unchanged |
| `Inventory.Ledger.HandleSubmit` | src/App.jsx:45-52 | stock becomes the batch deduction of all staged consumption, every staged product ends at 0 or above, staged consumption is emptied, staged restock is unchanged |
| `Inventory.Ledger.HandleAddStock` | src/App.jsx:54-58 | that product's stock grows by its staged restock (absent entries read as 0), its staged restock is reset to 0, all else is unchanged |
| `Inventory.SubmitNothingKeepsStock` | src/App.jsx:46-51 | committing with nothing staged leaves the stock unchanged |
| `Inventory.SubmitKeepsNonNegative` | src/App.jsx:46-49 | if no level was negative before the batch commit, none is after, whatever was staged |
| `Inventory.StageThenSubmit` | src/App.jsx:37-52 | staging text for one product, whatever else is staged, and committing moves that product to max(level minus typed amount, 0) and leaves every other product as the commit would have left it without that staging |
| `Inventory.OverdrawEndsAtZero` | src/App.jsx:48 | a product staged with at least its level ends at exactly 0 |
| `Inventory.RestockNeverLowers` | src/App.jsx:55-56 | with a non-negative staged restock the level never drops, and a non-negative stock stays non-negative |
| `Inventory.StageThenAddStock` | src/App.jsx:41-58 | staging text as restock and adding it raises the level by the typed amount and leaves the staged restock at 0 |
| `Inventory.NegativeRestockLowersStock` | src/App.jsx:54-56 | a negative staged restock lowers the level, and when it outweighs the level the stock is no longer non-negative |
| `Inventory.NegativeUsageRaisesStock` | src/App.jsx:46-49 | a negative staged consumption on a non-negative level raises it by the amount's magnitude on commit |
| `Theme.Toggle` | src/App.jsx:33-35 | pressing the toggle always changes the flag |
| `Theme.Encode` | src/App.jsx:23-31 | the stored value is "dark" or "light", and reading it back at start-up gives the flag that was written |
| `Theme.ToggleTwice` | src/App.jsx:34 | two presses restore the flag |
| `Theme.ToggledParity` | src/App.jsx:33-35 | after n presses the flag is the starting one exactly when n is even |
| `Theme.Decode` | src/App.jsx:18-20 | the start-up flag is dark exactly when storage holds "dark"; with nothing stored the page starts light |
| `Theme.OnlyDarkStartsDark` | src/App.jsx:18-20 | with no stored value or any string other than "dark", including "light", the page starts light; with what `Encode` writes for dark it starts dark |

## Left out

- Rendering, styling and the per-product inputs and buttons (src/App.jsx:60-119): presentation only.
- The translation lookup `t()`: a call into a foreign library.
- Browser storage and the root element's class list: I/O. Only the flag-to-string encoding and the start-up decoding are modelled. `Decode` takes what storage returned as a parameter.
- React's state scheduling and re-rendering: each handler is one atomic step on the current tables.
- Coercion.NumberOf: reads integer text only. JavaScript's `Number` also accepts decimals, exponents, hexadecimal, surrounding whitespace and "Infinity". The model treats all of these as NaN and stages 0, where the page would stage a non-integer or other number. Amounts are unbounded integers, not floating-point numbers.
- Coercion.StrayCharacterStagesZero: holds of the integer reading only. On the page, "1e3" stages 1000 and "1.5" stages 1.5, because `Number` reads exponents and decimals; see the line above.
- The iteration order of `Object.keys`: `ApplyUsage` picks keys in any order, and its result is proved not to depend on that order.
