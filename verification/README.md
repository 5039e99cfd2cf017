# PesoFácil laundry-weight and detergent model

PesoFácil is a single-screen form. The user picks garment types from a fixed
list of options and gives a quantity for each. The screen keeps a list of the
pieces added, shows their running total weight in grams or kilograms, and
computes detergent doses for a washing machine of a given capacity in kg. All
of this logic lives in `src/App.tsx`. This project models it in Dafny as pure
functions over immutable values:

- `Catalog`: the 18 options (`opcoes`) with the weight of one piece in
  grams, and the exact-name lookup `opcoes.find`.
- `Ledger`: the list of `Item {nome, qtd, peso}` lines. It has the add
  handler (`adicionar`), the remove handler (`remover`), the clear handler
  (`limpar`) and the running total (`total`). Each handler maps the current
  list to the next one. The add handler's two `alert` early returns become
  an `Alert` value, and the list stays unchanged when one is raised.
- `Units`: the switch from g to kg, and from mL to L, at a value of 1000 or
  more.
- `Dosage`: `calcularDetergente`, which scales 80 g of powder, 240 mL of
  powder and 100 mL of liquid detergent for an 11 kg machine in proportion to
  the capacity. The arithmetic uses exact reals.
- `Session`: a series of user actions applied in order, plus worked
  scenarios.
- `Wrappers`: the `Option` type.

Three consequences of how `src/App.tsx` is written:

- `remover` filters by position, so an index outside the list leaves the
  list unchanged (`Ledger.Remove`, `Session.RemoveOutOfRange`).
- Names match exactly, so a name missing from the 18 options, such as
  "Calça casal", raises the unknown-type alert (`Session.UnknownNameRejected`).
  `Session.ShirtsAndJeans` is a worked example: two Camiseta and one Calça de
  brim/jeans weigh 1100 g (`Session.ShirtsAndJeansTotal`).
- An empty selection is caught by the first check, with the "Selecione tipo
  e quantidade válida." alert, so the lookup never sees it.

## Model

| member | source | states |
|---|---|---|
| `Catalog.OptionsWellFormed` | src/App.tsx:30-49 | the option table has 18 entries, no two share a name, and every unit weight is positive |
| `Catalog.OptionWeightPositive` | src/App.tsx:30-49 | any row of the option table weighs a positive number of grams |
| `Catalog.CalcaCasalNotOffered` | src/App.tsx:30-49 | "Calça casal" is not one of the options |
| `Catalog.FindIn` | src/App.tsx:53 | the lookup returns None exactly when no entry has the name; otherwise it returns the first entry carrying exactly that name |
| `Catalog.Find` | src/App.tsx:53 | a found entry is a row of the option table with the name asked for; nothing is found exactly when the name is not offered |
| `Catalog.FindInExact` | src/App.tsx:53 | in a table with distinct names, the lookup returns row i if and only if row i carries the name |
| `Catalog.FindExact` | src/App.tsx:53 | the option lookup returns row i if and only if row i carries the name asked for |
| `Ledger.Add` | src/App.tsx:51-57 | an empty type or a quantity below 1 raises the invalid-selection alert; an offered type with a valid quantity is accepted; any other type raises the unknown-type alert; an alert leaves the list unchanged; acceptance appends exactly one line {type, quantity, unit weight times quantity} after the earlier lines, which stay unchanged and in order, with no merging of repeated types |
| `Ledger.MessagesDiffer` | src/App.tsx:52-54 | the invalid-selection alert reads "Selecione tipo e quantidade válida.", the unknown-type alert reads "Tipo de roupa inválido.", and the two texts differ |
| `Ledger.AddedLinePriced` | src/App.tsx:55-56 | the appended line weighs the unit weight of its type times its quantity, and its quantity is at least 1 |
| `Ledger.AddKeepsConsistent` | src/App.tsx:51-57 | adding keeps every line of the list priced from the option table |
| `Ledger.AppendKeepsConsistent` | src/App.tsx:56 | appending a priced line to a priced list gives a priced list |
| `Ledger.KeepOthers` | src/App.tsx:60 | filtering by position drops exactly the line at the given index and keeps the rest in order; an index outside the list keeps everything |
| `Ledger.Remove` | src/App.tsx:59-61 | for an index inside the list the result is the list without that line, one shorter, with the other lines in their original order; any other index leaves the list unchanged |
| `Ledger.RemoveKeepsConsistent` | src/App.tsx:59-61 | removing keeps every remaining line priced |
| `Ledger.TotalAfterClear` | src/App.tsx:63-65 | after clearing, the list is empty and the total is 0 |
| `Ledger.TotalConcat` | src/App.tsx:65 | the total of two lists placed end to end is the sum of their totals |
| `Ledger.TotalIsSum` | src/App.tsx:65 | the left-to-right fold equals the sum of line weights taken from the front |
| `Ledger.TotalSnoc` | src/App.tsx:65 | appending a line adds its weight to the total |
| `Ledger.TotalAfterAdd` | src/App.tsx:55-65 | an accepted add raises the total by exactly the new line's weight; a rejected add leaves the total unchanged |
| `Ledger.TotalAfterRemove` | src/App.tsx:59-65 | removing the line at an index inside the list lowers the total by that line's weight; any other index leaves the total unchanged |
| `Ledger.PricedWeighsSomething` | src/App.tsx:55 | a priced line weighs at least one gram per piece |
| `Ledger.ConsistentTotalPositive` | src/App.tsx:65 | a list of priced lines has a total of at least its number of lines, so a non-empty list has a positive total |
| `Units.Scale` | src/App.tsx:67-71 | a value of 1000 or more is shown in the larger unit, and a smaller one in the base unit; the reading stands for the same amount (magnitude times unit factor equals the value); a base-unit magnitude is below 1000 and a larger-unit magnitude is at least 1 |
| `Units.ShowWeight` | src/App.tsx:67-69 | a weight is shown in kg exactly when it is 1000 g or more and in g otherwise, without changing the amount; the same rule applies to each line |
| `Units.ShowVolume` | src/App.tsx:71 | a volume is shown in L exactly when it is 1000 mL or more and in mL otherwise, without changing the amount |
| `Units.WeightBoundary` | src/App.tsx:67-69 | 1000 g is shown as 1 kg, 999 g as 999 g, and 1100 g as 1.1 kg |
| `Units.VolumeBoundary` | src/App.tsx:71 | 1000 mL is shown as 1 L and 999 mL as 999 mL |
| `Units.ShowWeightMonotone` | src/App.tsx:67-69 | a weight shown in kg stays in kg when it grows |
| `Dosage.Calculate` | src/App.tsx:73-78 | each dose is proportional to the capacity: dose times 11 equals the reference dose (80 g, 240 mL, 100 mL) times the capacity, and the powder volume is three times the powder mass |
| `Dosage.ReferenceDose` | src/App.tsx:73-78 | an 11 kg machine gets exactly 80 g, 240 mL and 100 mL |
| `Dosage.ScaledDoses` | src/App.tsx:73-78 | 22 kg gives 160 g, 480 mL and 200 mL; 5.5 kg gives 40 g, 120 mL and 50 mL |
| `Dosage.Additive` | src/App.tsx:73-78 | the doses for a sum of capacities are the sums of the doses |
| `Dosage.Homogeneous` | src/App.tsx:73-78 | multiplying the capacity by k multiplies every dose by k |
| `Dosage.Monotone` | src/App.tsx:73-78 | a larger machine never gets less of any dose |
| `Dosage.NonPositiveCapacity` | src/App.tsx:73-78 | a capacity of zero or less is not rejected and yields doses of zero or less; zero yields zero doses |
| `Dosage.LiquidShownInLitres` | src/App.tsx:196 | the liquid dose is shown in L exactly when the capacity is at least 110 kg |
| `Dosage.PowderShownInLitres` | src/App.tsx:195 | the powder volume is shown in L exactly when 240 times the capacity reaches 11000 |
| `Session.RunKeepsConsistent` | src/App.tsx:51-63 | any series of adds, removes and clears applied to a priced list leaves every line priced |
| `Session.ReachableTotal` | src/App.tsx:51-65 | every list reachable from the empty list has a total of at least one gram per line |
| `Session.ClearAfterAnything` | src/App.tsx:63-65 | clearing after any series of actions gives the empty list with total 0 |
| `Session.AddOffered` | src/App.tsx:51-57 | adding a positive quantity of an offered type appends its line priced from that type's row, with no alert |
| `Session.ShirtsAndJeans` | src/App.tsx:51-57 | adding Camiseta × 2 and then Calça de brim/jeans × 1 to the empty list gives lines of 300 g and 800 g, in that order |
| `Session.ShirtsAndJeansTotal` | src/App.tsx:65-69 | those two lines total 1100 g, shown as 1.1 kg |
| `Session.UnknownNameRejected` | src/App.tsx:53-54 | adding "Calça casal" raises the unknown-type alert and leaves the list unchanged |
| `Session.RemoveOutOfRange` | src/App.tsx:59-61 | removing from the empty list, past the end or at a negative index changes nothing |

## Left out

- Rendering, JSX and styling (src/App.tsx:81-202): presentation only.
- React state hooks and the dark-mode preference and its toggle
  (src/App.tsx:10-28): browser plumbing with no domain logic. The list is a
  parameter of each handler, and the machine capacity is a parameter of
  `Dosage.Calculate`.
- The `alert` side effect: the add handler returns an `Alert` value instead.
  `Ledger.Message` gives the alert texts.
- `toFixed` rounding and number-to-text formatting: only the choice of unit
  and the exact magnitude are modelled. This covers two decimals for kg and
  L and no decimals for the powder mass.
- JavaScript floating point: dosage arithmetic uses exact reals, and weights
  and quantities use unbounded integers. Precision loss beyond 2^53 is not
  modelled.
- Ledger.Add: the quantity is an integer, but the source takes any number
  from the input field and checks only `qtd < 1`. A fractional quantity such
  as 1.5 would be accepted there, and this model cannot express it.
- The empty initial state of the dosage result (nothing shown before the
  first calculation): display state only.
- The build configuration (`vite.config.ts`): not part of the behaviour.
