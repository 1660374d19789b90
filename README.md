# Household budget ledger (Nexus budget screen) in Dafny

This project models the ledger behind a two-person household budget screen
(`src/App.jsx`, the `NexusEliteV9` React component). The screen keeps six
lists:

- fixed monthly expenses;
- annual expenses;
- pending advances, which are informal loans between the two partners;
- a history log;
- reimbursements;
- exceptional payments.

It also keeps the state of one dialog and of its form.

There are two parts:

- **Totals** (`totals.dfy`, module `Totals`) is the `totals` memo, modelled as
  pure functions. It computes the sum of each list and the nursery (crèche)
  share, found by a case-insensitive substring of a fixed expense's name. It
  also computes the monthly provision for annual expenses,
  `Math.round(totalAnnual / 12)`, and the monthly transfer each partner makes,
  `Math.ceil((totalFixed − crèche + provision) / 2)`. Finally it computes the
  cash at hand, `1429 + reimbursed − paid − pending`, and a 12-month
  projection of that cash.
- **Store** (`store.dfy`, module `Store`) is the component state and the form
  handler `handleForm`. The handler rejects an amount that is NaN or ≤ 0. It
  also rejects an empty label, except on a repayment. Otherwise it runs one of
  these branches:
  - add an advance, an exceptional payment or a reimbursement, each placed at
    the front of its list;
  - add a fixed or annual expense, placed at the end of its list;
  - repay an advance in full, which removes it;
  - repay an advance in part, which lowers its amount.

  Payments, reimbursements and repayments are logged at the head of the
  history. Every accepted submission closes the dialog and clears the form.
  The two trash icons delete a fixed or an annual expense by id.

The class `Store.BudgetApp` holds the state in fields, one per `useState`
hook except `activeTab`, which only selects the page shown. The six lists are
`seq` fields; the dialog and the form are datatype values. Each handler is a method that `modifies` the object. Its
`ensures` ties the new `State()` to a pure specification of the old one:
`Submit` for `handleForm`, `DeleteFixed` and `DeleteAnnual` for the trash
icons. The properties are proved as lemmas about those specifications:

- what each branch adds, removes or leaves unchanged;
- how it moves the cash and the totals;
- that no advance is left owing zero or less, provided the repayment dialog
  shows the current state of its advance (`DialogCurrent`), which a tap on an
  advance of a list with distinct ids gives (`OpenedRepayIsCurrent`);
- the figures of the initial data.

`js_builtins.dfy` gives the JavaScript built-ins the exact meaning the code
relies on. `records.dfy` holds the records and the list operations, which are
`reduce`, `filter` by id and `map` by id.

Amounts are exact `real` numbers. `Math.round(x)` is `floor(x + 0.5)`, so
halves round toward +∞ (2.5 → 3, −2.5 → −2). `Math.ceil(x)` is `−floor(−x)`.

These values come from outside the component and are method parameters:

- the result of `parseFloat(form.amount)`, a number or NaN;
- the two `Date.now()` readings, one naming the new record and one naming the
  history entry;
- the formatted day that `toLocaleDateString` returns.

## Model

| member | source | states |
|---|---|---|
| JsBuiltins.Round | src/App.jsx:35 | `Math.round` gives the integer within a half of its argument, a half going up |
| JsBuiltins.Ceil | src/App.jsx:36 | `Math.ceil` gives the least integer not below its argument |
| JsBuiltins.RoundHalfUp | src/App.jsx:35 | at a .5 boundary `Math.round` goes to the integer above, for either sign |
| JsBuiltins.RoundShift | src/App.jsx:44 | adding a whole number before rounding adds it after |
| JsBuiltins.LowerChar | src/App.jsx:34 | a lowered character is never upper case, other characters are kept, capitals move by 32 |
| JsBuiltins.ToLower | src/App.jsx:34 | `toLowerCase` keeps the length of the name |
| JsBuiltins.ToLowerAt | src/App.jsx:34 | `toLowerCase` lowers each character in its place and keeps the length |
| JsBuiltins.Includes | src/App.jsx:34 | the empty key is in every string, and a key longer than the string is never in it |
| JsBuiltins.IncludesIff | src/App.jsx:34 | `includes` holds exactly when the key occurs as a contiguous substring at some index |
| JsBuiltins.MissingCharExcludes | src/App.jsx:34 | a string lacking one character of the key does not include the key |
| Records.Sum | src/App.jsx:32-39 | the `reduce` of one record is that record's amount |
| Records.SumAppend | src/App.jsx:32-39 | the `reduce` sum of a concatenation is the sum of the sums; the sum of an empty list is 0 |
| Records.SumCons | src/App.jsx:32-39 | putting a record in front adds its amount to the sum |
| Records.SumPermutation | src/App.jsx:32-39 | two lists holding the same records in any order have the same sum |
| Records.SumNonNegative | src/App.jsx:32-39 | a list of non-negative amounts sums to a non-negative total |
| Records.CountId | src/App.jsx:77 | the number of records with an id is at most the length, and 0 exactly when none has it |
| Records.RemoveId | src/App.jsx:77 | the id filter keeps exactly the records without the id and drops as many as carry it |
| Records.RemoveIdAppend | src/App.jsx:77 | the id filter keeps the remaining records in their order |
| Records.RemoveIdAbsent | src/App.jsx:180 | filtering an id no record has returns the list unchanged |
| Records.UniqueCount | src/App.jsx:76-80 | with distinct ids, the advance being repaid is the only record with its id, so the filter and the map touch it alone |
| Records.SumRemoveId | src/App.jsx:77 | removing the one record with an id lowers the sum by that record's amount |
| Records.Decrement | src/App.jsx:80 | the id map keeps length, ids and labels, lowers the matching amounts by the payment and leaves the rest |
| Records.DecrementAbsent | src/App.jsx:80 | the id map of an id no record has changes nothing |
| Records.SumDecrement | src/App.jsx:80 | lowering the one record with an id by `v` lowers the sum by `v` |
| Totals.IsCreche | src/App.jsx:34 | a name shorter than "crèche" never marks the nursery |
| Totals.FindCreche | src/App.jsx:34 | `find` returns the index of a nursery expense with no nursery before it, or nothing when no expense is one |
| Totals.Creche | src/App.jsx:34 | the nursery share is the amount of the first expense whose lower-cased name contains "crèche", else 0 |
| Totals.CrecheIgnoresCase | src/App.jsx:34 | an upper-case "CRÈCHE" inside a longer name is found |
| Totals.CrecheNeedsTheWord | src/App.jsx:34 | when no lower-cased fixed-expense name contains "crèche" at any index, the nursery share is 0 whatever the amounts |
| Totals.NoGraveNoCreche | src/App.jsx:34 | a name with no 'è' in either case is never the nursery |
| Totals.Provision | src/App.jsx:35 | the provision is within half a euro of a twelfth of the annual total |
| Totals.Virement | src/App.jsx:36 | the transfer is the least whole euro not below half of (fixed − nursery + provision) |
| Totals.RealCash | src/App.jsx:41 | the cash is 1429 plus reimbursements minus payments minus advances, so with advances of non-negative amounts it is at most 1429 plus reimbursements minus payments |
| Totals.Projection | src/App.jsx:42-45 | twelve points named Jan…Déc in order; point `i` is within half a euro of cash + `i` provisions |
| Totals.ProjectionSteps | src/App.jsx:42-45 | the chart starts at the rounded cash and each month adds exactly one provision |
| Totals.ComputeTotals | src/App.jsx:31-48 | the memo's totals are the list sums; provision and transfer keep their rounding bounds; the projection is the twelve-month chart above, starting at the rounded cash and rising by one provision a month |
| Totals.TotalsIgnoreOrder | src/App.jsx:32-41 | reordering annual expenses, advances, reimbursements or payments changes no figure |
| Store.Log | src/App.jsx:50-52 | `addLog` puts exactly one entry, with the label, amount, type, clock id and day, in front of the history and keeps the rest |
| Store.BadAmount | src/App.jsx:57 | NaN is turned away, and an accepted amount is a positive number |
| Store.Rejected | src/App.jsx:56-60 | a bad amount is always turned away; in the repayment dialog only the amount is checked; elsewhere an empty label is turned away |
| Store.Apply | src/App.jsx:62-83 | a branch leaves the dialog and the form as they were, logs at most one entry in front of the history, and a closed dialog's type changes nothing |
| Store.Submit | src/App.jsx:54-86 | a turned-away submission changes nothing, dialog included; an accepted one closes the dialog and clears the form; the history gains at most one entry, in front |
| Store.RepayInFull | src/App.jsx:76-78 | the advance's id is filtered out and the others keep their order; one `reimb` entry for the amount owed (not paid) is logged; other lists unchanged; the cash grows by the amount owed |
| Store.RepayInPart | src/App.jsx:79-81 | same length and places; only the debt's id is lowered by the payment, and the remainder stays positive; one `reimb` entry for the payment; the cash grows by the payment |
| Store.AddPending | src/App.jsx:62-63 | one advance with the label and amount goes in front, nothing is logged, cash falls by the amount and the transfer is unchanged |
| Store.AddExceptional | src/App.jsx:64-66 | one payment goes in front and one `payment` entry with its label and amount is logged; total paid rises and cash falls by the amount |
| Store.AddReimbursement | src/App.jsx:67-69 | one reimbursement goes in front and one `reimb` entry with its label and amount is logged; cash rises by the amount |
| Store.AddExpense | src/App.jsx:70-73 | the expense goes at the end of the fixed list for 'fixed' and of the annual list otherwise, raising that total; nothing is logged and cash is unchanged |
| Store.SubmitKeepsPendingPositive | src/App.jsx:74-82 | if every advance owes a positive amount and the dialog shows the current advance, every advance still does after any submission |
| Store.OpenedRepayIsCurrent | src/App.jsx:143-144 | tapping an advance of a list with distinct ids opens a dialog showing the current advance, the hypothesis `SubmitKeepsPendingPositive` needs |
| Store.DeleteFixed | src/App.jsx:180 | the trash icon keeps exactly the fixed expenses without the id, drops as many as carry it, and changes no other part of the state |
| Store.DeleteAnnual | src/App.jsx:201 | the same for the annual expenses |
| Store.DeleteFixedEffect | src/App.jsx:180 | deleting the one fixed expense with an id lowers the fixed total by its amount; an unknown id changes nothing |
| Store.DeleteAnnualEffect | src/App.jsx:201 | the same for annual expenses and the annual total |
| Store.SeedTotals | src/App.jsx:13-24 | on the initial data: fixed 2791.83, annual 4548, provision 379, transfer 945, cash 1274, chart from 1274 in Jan to 5443 in Déc |
| Store.SeedProvision | src/App.jsx:19-22 | on the initial data the provision is 379 |
| Store.SeedVirement | src/App.jsx:13-22 | on the initial data the transfer is 945 |
| Store.SeedProjection | src/App.jsx:24 | on the initial data the cash is 1274 and the chart runs from 1274 to 1274 + 11 × 379 |
| Store.SeedSums | src/App.jsx:13-24 | the initial fixed, annual and pending lists (the `Seed` constant) sum to 2791.83, 4548 and 155 |
| Store.CrecheOfSeed | src/App.jsx:13-17 | the nursery of the initial data is the 1281.83 expense "Crèche" |
| Store.SeedLoanNotCreche | src/App.jsx:14 | "Crédit Immo" is not the nursery |
| Store.SeedChargesNotCreche | src/App.jsx:15 | "Charges Copro" is not the nursery |
| Store.SeedCrecheName | src/App.jsx:16 | "Crèche" is the nursery |
| Store.BudgetApp.constructor | src/App.jsx:10-29 | the state starts with the initial lists, an empty history, a closed dialog and an empty form |
| Store.BudgetApp.OpenModal | src/App.jsx:128-162 | a button opens the dialog of its type and changes nothing else; a repayment dialog opens only on an advance of the list |
| Store.BudgetApp.CloseModal | src/App.jsx:243 | the close button closes the dialog and changes nothing else |
| Store.BudgetApp.SetForm | src/App.jsx:248-266 | an input or a button replaces the form and changes nothing else |
| Store.BudgetApp.AddLog | src/App.jsx:50-52 | one entry goes in front of the history and nothing else changes |
| Store.BudgetApp.HandleForm | src/App.jsx:54-86 | the handler's new state is `Submit` of the old one |
| Store.BudgetApp.DeleteFixedExpense | src/App.jsx:180 | the new state is the old one with the fixed expenses of that id filtered out |
| Store.BudgetApp.DeleteAnnualExpense | src/App.jsx:201 | the new state is the old one with the annual expenses of that id filtered out |

### Behaviour worth knowing

- New history entries are placed at the head of the log.
- Repayment labels are "Remboursé: <label>" and "Partiel: <label>".
- The provision uses `Math.round`, so halves round up.
- The cash is 1429 plus reimbursements minus exceptional payments minus
  pending advances.
- The initial fixed expenses total 2791.83, and the initial transfer is 945.
- A repayment logs a `reimb` history entry and adds no reimbursement record.
  `RepayInFull` and `RepayInPart` state that the reimbursements are
  unchanged.

## Left out

- Rendering, charts, icons, tab switching and the dialog's presentation are
  UI only. `OpenModal`, `CloseModal` and `SetForm` model only their effect
  on the state.
- These values come from the clock, the locale or string parsing, so they are
  parameters:
  - the `Date.now()` ids;
  - the `toLocaleDateString` day;
  - the `parseFloat` of the typed amount.

  The model does not assume that the two `Date.now()` readings of one
  submission are equal.
- IEEE floating-point rounding of sums and differences is left out: amounts
  are exact. So are non-finite amounts such as `Infinity` from
  `parseFloat`.
- JsBuiltins.LowerChar: lowers only ASCII A–Z and the Latin-1 capitals
  U+00C0–U+00DE (not U+00D7). The full Unicode case mapping of
  `toLowerCase` is not modelled.
- Strings are sequences of Unicode scalar values and are never normalised.
  The model's literals ("crèche", "Déc", ...) are written with precomposed
  characters, as the component's are; a name spelling "è" as "e" plus a
  combining accent is a different string, as it is in JavaScript.
- `src/App.jsx_temp.jsx` and `src/supabase.js` are not part of this model.
  The first is drag-and-drop gesture UI. The second wraps an external client
  library.
- Persistence, authentication, absorbing an advance, savings accounts,
  personal expenses, and editing or deleting history entries do not appear in
  this version of the component.
- Store.RepayInFull, Store.RepayInPart, Store.DeleteFixedEffect,
  Store.DeleteAnnualEffect and Store.SubmitKeepsPendingPositive: their
  statements about totals, and the positivity of the advances, assume the record
  is the only one carrying its id. The component does not enforce distinct
  ids. With duplicates, every record with that id is removed or lowered, as
  the per-record clauses of those lemmas state.
