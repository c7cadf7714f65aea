# School payments and purchases: entry guard and history view

A Dafny model of the two pieces of sequential logic in the Shiny app
`app.py`. The app records school fee payments and item purchases in MySQL
and shows a filterable transaction history.

- **Workflow** (`workflow.dfy`) is the submit / confirm / cancel guard
  of `process_payment` and `process_purchase`. Each kind of transaction
  keeps two values: `pending`, true while a confirmation dialog is open,
  and the submit-button count it last acted on. One run of the effect gets
  the three buttons' cumulative click counts. It then executes three
  guarded blocks in order, in the same pass: open the dialog, confirm and
  insert, cancel.
  - `Pass` is that run written as a function of the old state.
  - The classes `PaymentEntry` and `PurchaseEntry` hold the two fields
    and perform the run in place. Each `Step` is proved to agree with
    `Pass`.
  - Inserted rows are appended to a ghost sequence.
  - Dialogs shown and removed, success notices and error log lines are
    appended, in order, to a ghost event log.
  - The database answers (the enrollee or item id, the school id, or an
    exception) are parameters of type `Lookup`.
- **History** (`history.dfy`) is `filtered_history_df` and the two total
  cards.
  - The union query's answer is a `seq<Row>`, or a failure.
  - Timestamps are integer seconds and amounts are integers in minor
    units.
  - Four filters narrow the rows: date range, fee type, school and type.
  - The remaining rows are sorted newest first, and then the school id
    column is dropped.
  - Any exception gives a frame with no columns.
  - Each card sums Amount over the rows of one type.
- **Wrappers** (`wrappers.dfy`) holds `Option`.

Three behaviours of the code are easy to misread. The model follows the
code in each:

- The guard is meant to commit once per confirm click: the comment at
  app.py:358 says a submit is detected "only when button clicked newly",
  and the dialog asks the user to confirm each submission. The code does
  not do this, because the confirm block only checks that the confirm
  count is positive, and that count never resets (see Findings). What the
  submit count still guarantees is weaker: no more rows than submit clicks.
- A failed history query does not give an empty table with zero totals.
  The except branch at app.py:459-461 returns `pd.DataFrame()`, which
  has no `Type` column, so both total cards raise. `CardTotal` returns `None` there.
- A school name with no `school_types` row raises inside the try
  (`None['school_id']`). It gives the same column-less frame as a failed
  query.

## Model

| member | source | states |
|---|---|---|
| `Workflow.PaymentAttempt` | app.py:315-334 | a payment row is inserted exactly when both the enrollee and the school lookups return a row, and it carries those ids and the form's fee type, amount, month and year; a missing id means skipped with an error logged, and a database exception means raised |
| `Workflow.PurchaseAttempt` | app.py:366-381 | a purchase row is inserted exactly when item and school both resolve, and it carries those ids and the form values; otherwise the insert raises and is caught (there is no skipped outcome) |
| `Workflow.CancelReset` | app.py:341-346 | the count recorded on cancel is submit - 1 for Payment and -1 for Purchase (app.py:391); either way it is below the current submit count |
| `Workflow.Pass` | app.py:305-348 | with submit count 0 (`req`) the pass changes nothing; any row it writes is the attempted record, and afterwards nothing is pending; at most three UI events per pass |
| `Workflow.PassOpensDialog` | app.py:309-312 | the dialog opens exactly when submit > 0, submit > the recorded count and nothing is pending; it is then the first event; without confirm or cancel clicks the state ends as pending with the submit count recorded |
| `Workflow.PassConfirmClearsPending` | app.py:314-339 | once the confirm count is positive every pass ends not pending; when the confirm block ran, the dialog was removed last, a success notice appears iff the insert succeeded and an error line iff it was skipped or raised |
| `Workflow.PassWritesRow` | app.py:314-330 | a row is written iff submit > 0, confirm > 0, the dialog was pending or opened in this pass, and the insert succeeded; it is the attempted record with a success notice |
| `Workflow.PaymentNeedsBothLookups` | app.py:318-332 | when the payment confirm block runs, a row is appended iff both lookups return a row, with their ids; otherwise an error is logged and no success notice is shown |
| `Workflow.PassCancelResets` | app.py:341-348 | cancel while pending (no confirm on record) clears pending, writes nothing, removes the dialog last and records the cancel reset, so the current submit count exceeds the recorded one |
| `Workflow.ConfirmFallsThrough` | app.py:309-339 | after any earlier confirm click, a new submit shows the dialog, inserts and removes it in the same pass: events are exactly shown, success notice, removed |
| `Workflow.CancelFallsThrough` | app.py:309-348 | after any earlier cancel click (and no confirm), a new submit shows and removes the dialog in the same pass, and re-running with the same counters repeats exactly that |
| `Workflow.IdleIsQuiet` | app.py:307-314 | with nothing pending and no submit newer than the recorded count, a pass changes nothing and shows nothing |
| `Workflow.Run` | app.py:305-348 | a sequence of passes, each with its own clicks and its own lookup and form answers, writes at most one row per pass |
| `Workflow.RowsWithinBudget` | app.py:309-348 | from any reachable guard (a pending dialog has a recorded count of at least 1), with confirm counts that never decrease and at most n submit clicks, a run writes at most n rows before any confirm click is on record, and afterwards at most one per submit click above the recorded count plus one for a pending dialog |
| `Workflow.RowsBoundedBySubmits` | app.py:309-348 | as written, starting idle with count 0, with confirm counts that never decrease, a run never writes more rows than the largest submit count it sees |
| `Workflow.SecondSubmitCommitsWithoutConfirm` | app.py:309-339 | the clicks submit, confirm, submit write two payment rows as written; the intended guard writes one and leaves the second dialog open |
| `Workflow.IntendedPass` | app.py:309-348 | corrected pass: a row is written only on a confirm count newer than the one recorded, and it is the attempted record; conversely, a newer confirm click on a dialog that is open (or opens in this pass) commits a successful insert; a dialog that closes by a newer confirm or cancel click leaves nothing pending and records the current submit count, so a click made while it was open opens nothing later; every pass records the current confirm count |
| `Workflow.OneConfirmAfterSeveralSubmits` | app.py:309-339 | submit twice, confirm once, then re-run with the same counters: as written the re-run opens a new dialog and commits it on the old click (two rows); the corrected guard writes one row and opens nothing for the submits clicked while the dialog was open |
| `Workflow.IntendedRowsBoundedByConfirms` | app.py:314-339 | with the corrected guard, the rows written over any run with non-decreasing confirm counts, whatever each pass's lookups and form values, number at most the confirm clicks made during it |
| `Workflow.PaymentEntry.constructor` | app.py:302-303 | a payment entry starts not pending, with recorded count 0, no rows and no events |
| `Workflow.PaymentEntry.Step` | app.py:305-348 | updates pending and the recorded count in place exactly as `Pass` does for Payment, appends the row written (if any) and the pass's events |
| `Workflow.PurchaseEntry.constructor` | app.py:352-353 | a purchase entry starts not pending, with recorded count 0, no rows and no events |
| `Workflow.PurchaseEntry.Step` | app.py:354-393 | updates pending and the recorded count in place exactly as `Pass` does for Purchase, appends the row written (if any) and the pass's events |
| `History.Filter` | app.py:429-455 | a boolean selection `df[...]` keeps each row as often as it occurs when the condition holds and drops it otherwise, so it never adds rows |
| `History.ByDate` | app.py:425-429 | with a date range picked, a row stays iff start <= created_at <= end + one day; with none, every row stays |
| `History.DateFilterBounds` | app.py:425-429 | a row is in the date-filtered result iff it was fetched and start <= created_at <= end + 86400 seconds |
| `History.ByFeeType` | app.py:432-433 | with a fee type other than "All", only Payment rows whose Category equals it stay |
| `History.BySchool` | app.py:435-438 | with a resolved school id, only rows with that school_id stay |
| `History.ByType` | app.py:454-455 | with a type other than "All", only rows whose Type text equals it stay |
| `History.Selected` | app.py:425-455 | the four filters in sequence keep a row, with its multiplicity, exactly when all four accept it (composition by AND) |
| `History.InsertSorted` | app.py:456 | inserting a row into a newest-first sequence keeps it newest first |
| `History.SortNewestFirstSorts` | app.py:456 | the sort `SortNewestFirst` returns the rows newest first and as a permutation of its input |
| `History.SortKeepsEntries` | app.py:456-458 | sorting before the column drop changes neither the entries nor how often each occurs |
| `History.SortKeepsTotal` | app.py:456-489 | sorting before the column drop leaves the Amount sum of each type unchanged |
| `History.DropSchool` | app.py:458 | the school_id column is dropped: same length, and each entry is the row at that position without its school id |
| `History.FilteredHistory` | app.py:407-464 | the column-less frame is returned exactly when the query fails or a chosen school name has no id; a table never has more rows than were fetched |
| `History.HistoryContents` | app.py:425-458 | a returned table is sorted by created_at descending and holds, as a multiset, exactly the fetched rows that all filters accept, without school_id |
| `History.EntriesMatchFilters` | app.py:425-458 | every entry of the table comes from a fetched row that passes all four filters |
| `History.FeeTypeFilterDropsPurchases` | app.py:432-433 | with a fee type other than "All", every entry is a Payment of that fee type, so the purchase total is zero |
| `History.TypeFilterKeepsOneKind` | app.py:454-455 | with a type filter, every entry is of that type and the other card's total is zero |
| `History.CardTotal` | app.py:476-493 | a card shows a total exactly when the frame has columns, and that total is `Total`, the Amount sum over the entries of its type; on the column-less frame it raises |
| `History.TotalsSplitAmounts` | app.py:478-489 | the payment total plus the purchase total is the sum of all Amounts |
| `History.CardTotalsOfFilteredRows` | app.py:476-493 | each card equals the Amount sum over the rows of its type in the same filtered set the table shows, whatever their order, and the two cards add up to the table's Amounts |

## Left out

- Connection handling and SQL text (`get_connection`, every `cursor.execute`). These are external I/O. Lookups and inserts become `Lookup` values and ghost row sequences.
- The server-assigned `created_at` (`NOW()`) of an inserted row. It is a clock read, so `PaymentRecord` and `PurchaseRecord` do not carry it.
- Whether an unresolved id makes the purchase INSERT fail depends on the schema's NOT NULL constraints. The model takes it to raise, assuming `item_id` and `school_id` in `purchases` are NOT NULL.
- Login (`bcrypt.checkpw`). It is a foreign hashing library.
- All UI construction, the modal and notification calls, and the dropdown refreshes `update_enrollees` / `update_items`. These are rendering and DB reads. Modal and notification calls become `UiEvent` entries.
- Shiny's reactive scheduler. A pass is one `Step` call with counters given as inputs. Whether and when Shiny re-runs the effect is not modelled.
- `process_payment` is re-created on each run of `update_items`. The model keeps one `PaymentEntry` per kind.
- The dialog's Cancel button is a `ui.modal_button` with no input id (app.py:402), and `confirm_payment` does not exist before the first dialog. Reading a missing input stops the pass silently. The model takes all three counters as given, so the cancel block is reachable in it. In the app itself the Cancel button only closes the dialog in the browser: `payment_pending` / `purchase_pending` stay true, so no later submit opens a dialog. If a confirm click is already on record, the next run commits straight away; otherwise the flag never clears. The model does not capture this.
- The two `print` calls in the payment cancel block (app.py:343, 345). They write the recorded count to standard output and change no state.
- The unbound `cursor` / `conn` in `finally` when the connection fails. This is a Python runtime artefact. A failed connection is modelled as `DbError` / `QueryFailed`.
- pandas date parsing, the `₦{:,.2f}` currency formatting and `to_csv`. These involve floats and library formatting. Dates are integer seconds and amounts integer minor units.
- HistoryContents: the order of rows with equal `created_at` is not stated. pandas' default sort is not stable, so the source promises none. The model sorts by insertion.

## Findings

| source | as written | input that shows it | evidently intended | confidence | as-written member | corrected member |
|---|---|---|---|---|---|---|
| app.py:314 | the confirm block fires when `confirm_payment() > 0 and payment_pending()`; the confirm count is never recorded, so one old click satisfies it for the rest of the session (same at app.py:365 and for cancel at app.py:341, 389) | start not pending with count 0; passes with (submit, confirm, cancel) = (1,0,0), (1,1,0), (2,1,0): the third pass opens the second dialog and commits it at once, giving two rows for one confirm click | each commit needs its own confirm click, so rows never outnumber confirm clicks | not executed | `Workflow.SecondSubmitCommitsWithoutConfirm` | `Workflow.IntendedRowsBoundedByConfirms` |
