# Club accounting client — verified model of its ledger and grid logic

The client keeps a chart of accounts and a journal of bookings in two
editable grids and derives an income statement and a balance sheet from the
bookings. This project models in Dafny the two parts of `script.js` that hold
deterministic logic:

- **Ledger aggregation** (`Ledger`, `ledger.dfy`): `calculateStatement`,
  `calculateBalances` and `getProfit`. A booking takes part when its date does
  not sort after the cutoff (plain string order), posts its amount to the debit
  total of its debit account and the credit total of its credit account (a falsy
  account posts nothing), and accounts are then classified by the first
  character of their key: `4` debit−credit and `3` credit−debit on the
  statement, `1` debit−credit and `2` credit−debit on the balance sheet. The
  profit is the sum of the prefix-3 balances minus the sum of the prefix-4
  balances, kept exactly as written. Besides the per-account sums, the model
  proves that this profit is what the bookings credit to statement accounts
  minus what they debit to them, and that with every booking on accounts of the
  four classes the assets equal the liabilities plus that profit — the
  comparison the balance view draws in red when it fails.
- **Editable grid state** (`EditableTables`, `editable_table.dfy`): the class
  `EditableTable` with its rows (`data`, with the transient `_new` / `_deleted`
  flags), the `changed` index set and the account options; `load` (sorted by
  number), `addRow`, `toggleDelete`, the data part of `onEdit`, and `save`
  (selection of the dirty rows, the per-resource payload, clearing `changed`,
  reload).
- **Wiring** (`Bookkeeping`, `app.dfy`): the wrapped accounts save of
  `initApp` that nulls every booking debit or credit no longer matching an
  account (by JavaScript loose equality) and marks that row as edited; and the
  view of the bookings grid's rows that the aggregation reads.
- **JavaScript values** (`JsValues`, `js_values.dfy`): cell values (`undefined`,
  `null`, string, number), truthiness, `Number(…)`, `String(…)` and `==`.

Two environment effects become parameters of `Save`: whether the backend
accepted the PUT (`putOk`), and what the reload fetched (`reloaded`, `None`
when the GET failed). The booking list is a parameter of the aggregation
functions instead of the global grid.

Two behaviours of the code are stated as they are. Every accounts save that
does not fail (nothing to send, or saved and reloaded) marks a booking whose debit or credit is already empty as edited again: `null` never
loosely equals an account number (`EmptyReferenceIsMarked`). And a row marked
for deletion still counts in the statement and balance sheet until the
deletion is saved (`DeletionPendingStillCounts`).

## Model

| member | source | states |
|---|---|---|
| JsValues.Parse | script.js:236-240 | `Number` of the empty string is 0; a finite result from a non-empty string needs a digit |
| JsValues.ParseShow | script.js:142-147 | converting `String(n)` back with `Number` gives `n` again (select values are strings of account numbers) |
| JsValues.NumberMatchesItsRendering | script.js:364 | an account number loosely equals the string the select holds for it, both ways round |
| JsValues.ToStr | script.js:255 | `String` keeps a string and renders a number so that it converts back to it |
| Ledger.LessIrreflexive | script.js:409 | no date string sorts before itself |
| Ledger.LessTrichotomy | script.js:501 | string order is total and asymmetric, so every date is either within the cutoff or after it |
| Ledger.LessTransitive | script.js:501 | string order is transitive |
| Ledger.BookingOnCutoffIncluded | script.js:409-411 | a booking dated exactly on the cutoff counts |
| Ledger.IncludedMonotone | script.js:501-503 | a booking counted at one cutoff is counted at every later cutoff |
| Ledger.Post | script.js:415-427 | a falsy account posts nothing; otherwise its totals are created at zero and only that account's totals grow by the amount |
| Ledger.TallyIsSums | script.js:406-428 | the totals hold exactly the non-empty accounts named by an included booking, each with the sum of amounts debited and the sum credited to it |
| Ledger.LaterBookingIgnored | script.js:408-411 | appending a booking dated after the cutoff leaves the totals unchanged |
| Ledger.StatementIsSums | script.js:401-444 | the statement lists an account iff there is a cutoff, its key starts with 3 or 4 and an included booking names it (the account list is not consulted); 4 gives debit−credit, 3 credit−debit |
| Ledger.BalancesAreSums | script.js:493-535 | the balance sheet lists an account iff there is a cutoff, its key starts with 1 or 2 and an included booking names it; 1 gives debit−credit, 2 credit−debit |
| Ledger.StatementAndBalancesDisjoint | script.js:436-440 | no account appears on both the statement and the balance sheet |
| Ledger.LaterBookingChangesNothing | script.js:500-503 | a booking dated after the cutoff changes neither the statement nor the balance sheet |
| Ledger.TotalRemove | script.js:389-395 | summing a map's balances may take the accounts in any order |
| Ledger.GetProfit | script.js:379-398 | 0 without a cutoff; otherwise prefix-3 balances minus prefix-4 balances, which equals what the bookings credit to statement accounts minus what they debit to them |
| Ledger.SideIsFlow | script.js:432-441 | the sum of one prefix's balances is that prefix's net flow over the included bookings |
| Ledger.ProfitIsBookedProfit | script.js:384-397 | the profit over the statement equals the profit read off the bookings one by one |
| Ledger.BalanceSheetBalances | script.js:583-591 | when every included booking uses accounts of prefixes 1–4, assets equal liabilities plus the reported profit |
| Ledger.SingleBookingExample | script.js:401-535 | one booking of 100 from 1000 to 4000 on the cutoff day gives 4000 ↦ −100 on the statement and 1000 ↦ 100 on the balance sheet |
| EditableTables.Insert | script.js:114 | inserting into a list sorted by number keeps it sorted and adds exactly that row |
| EditableTables.SortByNumber | script.js:114 | the sort yields the rows ascending by number, a permutation of the input |
| EditableTables.EditableTable.Load | script.js:112-116 | the grid's rows become the fetched records sorted by number, a permutation of them |
| EditableTables.BlankRow | script.js:202-204 | the new row has exactly the columns as fields, each the empty string, and is flagged new |
| EditableTables.EditableTable.AddRow | script.js:201-207 | exactly one blank row is appended, earlier rows unchanged, and it will be sent by the next save |
| EditableTables.Toggled | script.js:196-197 | only row i's deletion flag flips; no row is removed |
| EditableTables.ToggleTwice | script.js:196-199 | toggling deletion twice restores the rows |
| EditableTables.EditableTable.ToggleDelete | script.js:196-199 | the rows become `Toggled(old rows, i)` |
| EditableTables.Edited | script.js:191 | only field `field` of row i changes, to the string typed; flags and other rows stay |
| EditableTables.EditableTable.OnEdit | script.js:188-194 | the rows become `Edited(…)` and row i joins `changed` |
| EditableTables.DirtyIndices | script.js:210 | ascending indices of exactly the rows that are new, deleted or in `changed` |
| EditableTables.NothingDirty | script.js:210-215 | nothing is selected exactly when no row is new, deleted or edited |
| EditableTables.ReloadedTableIsClean | script.js:269-270 | a table just reloaded from the backend has nothing to save |
| EditableTables.BookingEntry | script.js:223-245 | a bookings entry never has `number`; it has `id` iff the number is not null, holding the number converted; a deleted row and every empty field send null; a live debit, credit or amount is sent as its `Number`, null when not finite; any other live column is sent as it is |
| EditableTables.AccountEntry | script.js:246-259 | an accounts entry has exactly the columns; `number` is the converted number even for a deleted row; other fields are null when deleted or empty, and otherwise sent as `String` of the cell |
| EditableTables.RequestFor | script.js:217-265 | the PUT goes to the grid's path under key `accounts` or `entries`, with one entry per selected row in row order |
| EditableTables.DeletedBookingSendsOnlyId | script.js:229-231 | a deleted booking sends null for everything but its id |
| EditableTables.SelectedAccountSentAsNumber | script.js:235-237 | an account chosen in a debit or credit select is sent as that account's number |
| EditableTables.AccountNameSentAsTyped | script.js:255 | an account name is sent as typed, or null when emptied |
| EditableTables.EditIsSent | script.js:188-192 | an edited booking field is selected by the next save and sent as typed |
| EditableTables.EditableTable.constructor | script.js:98-110 | a grid starts with no rows and no edits |
| EditableTables.EditableTable.Save | script.js:209-273 | no dirty rows: nothing is sent and nothing changes; a rejected PUT changes nothing; otherwise the request is the dirty rows' entries, `changed` is cleared, and a successful reload leaves nothing to save |
| Bookkeeping.PruneRow | script.js:364-371 | an unmatched debit or credit becomes null, a matched one stays; no other field or flag changes |
| Bookkeeping.PrunedReferencesResolve | script.js:363-372 | after pruning every debit and credit is null or loosely equals an account number |
| Bookkeeping.PrunedRowIsMarked | script.js:364-371 | a row the pruning changed is in `changed` |
| Bookkeeping.EmptyReferenceIsMarked | script.js:364-366 | a booking with a null debit is marked as edited whenever no account number is null, though the pruning leaves it as it was |
| Bookkeeping.PruneDanglingAccounts | script.js:358-373 | the options are the account numbers, the rows become `Pruned(…)`, and `changed` gains exactly the rows with an unmatched debit or credit |
| Bookkeeping.SaveAccounts | script.js:355-374 | the accounts grid ends as its own save leaves it (same outcome and request); after an accounts save that sent nothing or succeeded the bookings are pruned against the accounts grid's new rows; after a failed PUT or reload they are untouched |
| Bookkeeping.AccountKey | script.js:415-416 | a falsy account gives the empty key (posts nothing); a string is its own key, a number its decimal rendering |
| Bookkeeping.AmountOf | script.js:413 | a numeric amount is itself, an empty or null one is 0 |
| Bookkeeping.NumberAndItsStringShareKey | script.js:416 | account 1000 and account "1000" accumulate under the same key |
| Bookkeeping.DeletionPendingStillCounts | script.js:500 | marking a row deleted changes neither the statement nor the balance sheet |
| Bookkeeping.PrunedReferencePostsNothing | script.js:415 | a debit the pruning removed posts nothing |

## Left out

- Network and storage: `login`, `register`, `getData`, `putData` and the token in local storage (script.js:5-66). `putData`'s success and the reload's result are the parameters `putOk` and `reloaded` of `Save`.
- Presentation: `render`, `renderStatement`, `renderBalance`, toasts, tab switching and event wiring, `toFixed` formatting and the 0.0001 tolerance of the balance check (script.js:70-94, 118-186, 446-488, 537-598). `BalanceSheetBalances` states the exact identity behind that check over the aggregation maps; the view itself sums only the accounts in the accounts grid.
- Asynchronous ordering and the monkey-patching of `accountsTable.save`: `SaveAccounts` is an ordinary method that runs the original save, then the pruning.
- The labels of the account options (presentation); the options are the account numbers.
- JavaScript numbers: every number is an exact integer; fractions and floating point are not modelled.
- Bookkeeping.AmountOf: an amount typed with a decimal point (the amount input steps by 0.01, so "12.50" is usual) is not a number to the model and posts 0 in the statement and balance sheet, where the code posts 12.5.
- EditableTables.BookingEntry: an amount typed with a decimal point is sent as null, where the code sends the fractional number.
- JsValues.Parse: models `Number(s)` only for the empty string and optionally signed decimal integers; whitespace trimming, fractions, exponents, hexadecimal and `Infinity` are not modelled.
- Bookkeeping.AmountOf: a non-numeric amount counts as 0, whereas the code would make that account's totals NaN.
- Bookkeeping.DateOf: a non-string date compares like the empty string; this matches the code for every non-numeric cutoff (the date control delivers ISO dates), not for a numeric-looking cutoff string.
- Ledger.Less: compares characters as Unicode scalar values, not UTF-16 code units; the two orders differ only outside the Basic Multilingual Plane.
- EditableTables.EditableTable.Load: requires every fetched record to have a numeric number; with a NaN key the comparator is inconsistent and the resulting order is left to the engine. Stability of the sort is not stated.
- EditableTables.BookingEntry: the order of keys in the JSON object is not modelled (entries are maps).
- The field and index a DOM event carries in `onEdit` are parameters; the `modified` class on the table row is presentation.
