# Freelance timesheet bookkeeping, modelled in Dafny

This project models the bookkeeping core of a small Flask application
(`app.py`). The application keeps three tables in one Excel workbook:

- **Clients**: each client is top-level (empty `ParentID`) or a child of a top-level client.
- **Tasks**: each task belongs to a client.
- **Timesheet entries**: each entry belongs to a task.

From these tables the application builds a monthly billing report. The model covers:

- **Earnings rule.** `compute_earn` gives a Monthly or Project client its flat amount for every entry with hours. Every other entry earns hours × amount. The paid share of an entry is its earnings if it is paid, else nothing.
- **Aggregation.** The timesheet is joined with tasks and clients, then summed per (Month, ClientID) bucket. Groupby keys are in Python string order.
- **Monthly report.** There is one row per month of the aggregation and per top-level client that pass the query-string filters. Each row holds the parent's own bucket and a child row per child bucket, with their totals. The grand totals and their euro conversion follow.
- **Timesheet view.** The routed view nests entries by top-level parent (`find_parent`), then by client.
- **Record store.** Clients, tasks and entries are held in place and changed by `add_client`, `edit_client`, `add_task`, `update_status`, `log_hours` and `mark_paid`. `pending_count` queries it.
- **Loading.** `load_data` fills default values into the sheets it reads. `save_data` writes the sheets back.

Modules:

- `Records`: the record datatypes and the id lookups the merges perform.
- `Keys`: Python's string order, sorted distinct keys, and filtering.
- `Hierarchy`: top-level clients, `find_parent` and the two-level hierarchy.
- `Timesheet`: the routed `view_timesheet` nesting, as a method with nested loops.
- `Billing`: the earnings rule, the joined lines, sums over selections of lines, and the buckets.
- `Summary`:
  - `monthly_summary` as a method with the source's nested loops, proved equal to a function over months × parents;
  - lemmas that tie every row and every grand total back to the timesheet;
  - the report as a value.
- `Store`: a class holding the three tables, whose methods are the form handlers.
- `Loading`: the defaulting of `load_data`, and the `save_data` → `load_data` round trip.

Money and hours are `real`. A month is the string key that `to_period('M')` gives. The monthly summary takes the date-to-month conversion as a parameter, `monthOf`. The exchange rate is one fetch outcome, `Option<real>`: `None` when the fetch raises. Fresh uuids, the current date and time, and the parsed form fields are parameters.

`app.py` has no tenants, no soft-delete flags, no deletion guards and no exchange-rate cache; neither does the model. It also does not enforce the two-level hierarchy on edit (see `Store.EditKeepsTwoLevel`).

## Model

| member | source | states |
|---|---|---|
| Records.FindTask | app.py:423-424 | The left merge on TaskID finds a task of that id if there is one; it finds nothing exactly when no task has the id. |
| Records.FindClient | app.py:425-426 | The merge on ClientID finds a client of that id; it finds nothing exactly when no client has the id. |
| Records.FindClientUnique | app.py:413 | With unique ClientIDs, looking a client up by its id yields that client. |
| Keys.BelowIrreflexive | app.py:460 | No month or client key sorts before itself in the string order groupby uses. |
| Keys.BelowTransitive | app.py:460 | The string order is transitive. |
| Keys.BelowTotal | app.py:460 | Any two different keys are ordered one way or the other. |
| Keys.SortedKeys | app.py:443 | The group keys are strictly ascending and are exactly the keys present. |
| Keys.DescendingKeys | app.py:452 | `sorted(unique(...), reverse=True)` is strictly descending and holds exactly the values present. |
| Keys.FilterAscending | app.py:476 | A boolean mask keeps an ascending key list ascending. |
| Keys.FilterDistinct | app.py:453 | A boolean mask keeps a list without duplicates without duplicates. |
| Hierarchy.TopLevel | app.py:453 | The parent list holds exactly the clients with an empty ParentID. |
| Hierarchy.TopLevelAppend | app.py:453 | Selecting the top-level clients of a table is selecting them from its first stretch, then from the rest. |
| Hierarchy.TopLevelRank | app.py:453 | The top-level client at table position i sits in the parent list right after the top-level clients before it, so the list keeps table order. |
| Hierarchy.FindParent | app.py:334-336 | `find_parent` returns a known client's non-empty ParentID, whatever level that parent is at. It returns the id itself when the ParentID is empty or no client has the id. |
| Hierarchy.TopLevelIdsDistinct | app.py:453 | With unique ClientIDs, `parent_ids` has no duplicates. |
| Hierarchy.FindParentOfFamily | app.py:334-336 | `find_parent` maps a client to top-level client p exactly when it is p or a child of p. |
| Hierarchy.FindParentIdempotent | app.py:334-336 | In a two-level hierarchy, applying `find_parent` twice gives the same as once. |
| Hierarchy.FindParentIsTopLevel | app.py:334-336 | In a two-level hierarchy, every existing client's `find_parent` is the id of a top-level client. |
| Timesheet.SheetRows | app.py:324-330 | The grouped rows are the entries whose task exists, each joined with its task and client. |
| Timesheet.SheetRowsAppend | app.py:324-330 | The merge keeps timesheet order: two stretches of entries give their rows one after the other. |
| Timesheet.SheetRowsCount | app.py:324-330 | An entry whose task exists is shown exactly as many times as it occurs in the timesheet; any other entry is never shown. |
| Timesheet.UnderParent | app.py:342 | A parent's group holds exactly the rows whose `find_parent` is that parent. |
| Timesheet.UnderParentAppend | app.py:342 | A parent's group keeps frame order: two stretches of rows give their selections one after the other. |
| Timesheet.UnderParentCount | app.py:342 | A parent's group holds each of its rows as often as the frame does, and no other row. |
| Timesheet.RowsOf | app.py:345 | A child's group holds exactly the parent group's rows of that client. |
| Timesheet.RowsOfAppend | app.py:345-347 | A child's records keep the parent group's order, as `to_dict('records')` lists them. |
| Timesheet.RowsOfCount | app.py:345-347 | A child's records hold each row of that client as often as the parent group does, and no other row. |
| Timesheet.NestChildren | app.py:344-352 | The inner loop appends one child group per client key, in key order. |
| Timesheet.NestTimesheet | app.py:341-357 | The outer loop appends one parent group per parent key, each with its child groups. |
| Timesheet.NestedIsOrdered | app.py:342-345 | Parent groups are strictly ascending by parent id. Within each parent group, child groups are strictly ascending by ClientID. |
| Timesheet.NestedIsConsistent | app.py:341-357 | Every group is non-empty. Every entry of a child group is a row of that client, whose `find_parent` is the group's parent. |
| Timesheet.GroupOfRow | app.py:338-342 | Every row has a parent group: the group of its `find_parent`. |
| Timesheet.ChildOfRow | app.py:345 | Every row of a parent group has a child group: the group of its client. |
| Timesheet.NestedCoversRows | app.py:341-357 | Every row lands in the child group of its client, under the parent group of its `find_parent`. |
| Billing.PaidShareBounded | app.py:433-439 | With non-negative amount and hours, an entry's PaidEarnings lie between 0 and its Earnings. |
| Billing.Lines | app.py:422-427 | Every entry whose task exists reaches the aggregation, and nothing else does. Each line carries its client's PaymentType and PaymentAmount, or none when the client is missing. |
| Billing.LinesCount | app.py:422-427 | An entry whose task exists reaches the aggregation exactly as many times as it occurs in the timesheet; any other entry never does. |
| Billing.SumAppend | app.py:445-447 | A column's sum over two stretches of lines is the sum of the two sums. |
| Billing.SumOfNothing | app.py:481-483 | A selection that no line matches sums to 0.0. |
| Billing.Partition | app.py:442-449 | Summing per key over distinct keys, then adding, equals summing over the lines of all those keys. |
| Billing.SumAmongUnion | app.py:488-490 | Lines of two disjoint key sets sum to the two sets' sums added. |
| Billing.FlatRatePerEntry | app.py:433-436 | For a Monthly or Project client whose entries all have hours, the earnings are the flat amount once per entry, not once per month. |
| Billing.RepeatIsProduct | app.py:433-436 | The flat amount charged n times totals n × amount. |
| Billing.HourlyEarnings | app.py:433-436 | For any other payment type, the earnings over a selection are its total hours × the amount. |
| Billing.AggMonths | app.py:460 | The months of the aggregation are strictly ascending and are exactly the months of the lines. |
| Billing.MonthClients | app.py:443 | A month's client keys are strictly ascending and are exactly the clients with a line in that month. |
| Billing.FilterMonthBuckets | app.py:476 | Masking a month's buckets by client gives the buckets of the kept clients, in the same order. |
| Billing.KeptShare | app.py:476-483 | The masked buckets' totals are the sums over the lines of the kept clients. |
| Billing.MonthTotal | app.py:442-449 | A month's buckets add up to that month's lines. |
| Billing.AggConservation | app.py:442-449 | For hours, earnings and paid alike, the buckets of the aggregation add up to all the lines: grouping loses nothing. |
| Billing.AggKeysUnique | app.py:442-449 | A (Month, ClientID) pair has exactly one bucket if some line has it, and none otherwise. |
| Billing.AggBucketIsItsSum | app.py:442-449 | Every bucket holds the sums over exactly the lines of its (Month, ClientID) pair, and at least one line has that pair. |
| Summary.MonthList | app.py:452 | `month_list` is strictly descending and holds exactly the months of all entries, including entries whose task is missing. |
| Summary.ParentNames | app.py:454 | `parent_names` are the names of the top-level clients, one per client of the parent list. |
| Summary.ParentNamesRank | app.py:453-454 | The name of the top-level client at table position i comes right after the names of the top-level clients before it: `parent_names` is in table order. |
| Summary.MonthRows | app.py:463-490 | The inner loop builds one row per parent that passes the client filter, in parent order. The rate is fetched exactly when a row is built. |
| Summary.AppendRow | app.py:463-505 | One pass of the inner loop skips a parent that the client filter rejects. Otherwise it fetches the rate and appends the parent's row. |
| Summary.AppendMonth | app.py:460-505 | One pass of the outer loop skips a month that the month filter rejects. Otherwise it appends the month's rows. Either way the rate stays bound exactly when the summary is non-empty. |
| Summary.BuildSummary | app.py:458-505 | The nested loops build exactly the selected months × selected parents, month by month. `eur_rate` is bound exactly when the summary is non-empty. |
| Summary.MonthlySummary | app.py:408-525 | The whole handler gives the report, or the unbound-rate error, that the report function defines. |
| Summary.ChildRowsTotal | app.py:488-490 | Summing a column over `children_list` gives the total of the child buckets. |
| Summary.RowSplit | app.py:479-491 | A row's TotalHours, TotalEarnings and TotalPaid are its own bucket's plus its children's buckets'. |
| Summary.RowIsFamilyTotal | app.py:469-491 | A row's totals are the sums over that month's lines whose `find_parent` is the row's client. |
| Summary.RowChildren | app.py:469-477 | `children_list` holds, in ascending ClientID order, the bucket of every client of the month whose ParentID is the row's client. |
| Summary.RowWithoutLinesIsZero | app.py:463-491 | A top-level client with no line under it that month still gets a row, and its totals are zero. |
| Summary.BlockTotal | app.py:463-505 | A month's rows add up to the month's lines under the listed parents. |
| Summary.GridKeyTotals | app.py:459-505 | The summary's totals are, month by month, the sums over the lines under the listed parents. |
| Summary.GridTotal | app.py:459-510 | The summary's totals are the sums over the lines of the listed months under the listed parents. |
| Summary.SummaryTotal | app.py:459-510 | The grand totals over the surviving rows are the sums over exactly the lines that both filters select. |
| Summary.ReportCoversEverything | app.py:459-510 | Unfiltered, with a two-level hierarchy and every line's client present, the grand totals are the totals of all lines. |
| Summary.BlockRows | app.py:463-466 | A row is in a month's rows exactly when it is the row of one of the listed parents. |
| Summary.GridRows | app.py:460-466 | A row is in the summary exactly when it is the row of some listed month and some listed parent. |
| Summary.GridEmpty | app.py:459-466 | The summary is empty exactly when no month or no parent is listed. |
| Summary.PendingIsEarningsLessPaid | app.py:491 | When every row's TotalPending is its TotalEarnings − TotalPaid, the pendings add up to earnings − paid. |
| Summary.ReportPendingIsRowsPending | app.py:508-510 | `total_pending` is the sum of the rows' TotalPending. |
| Summary.AsWrittenFailsIff | app.py:484-487 | The page fails exactly when no selected month exists or no selected top-level client exists. |
| Summary.UnknownMonthFails | app.py:522-524 | A month filter naming only months without entries makes the page fail on the unbound `eur_rate`. |
| Summary.CorrectedAgrees | app.py:508-524 | Whenever the page renders as written, the corrected report is the same report. |
| Summary.CorrectedReportTotals | app.py:508-510 | The corrected report's grand earnings, paid and pending are the sums over the selected lines, with pending = earnings − paid. |
| Store.StripLeft | app.py:111 | Leading whitespace is removed, and nothing else. |
| Store.StripRight | app.py:111 | Trailing whitespace is removed, and nothing else. |
| Store.StripBounds | app.py:111 | `strip()` gives the slice of the input that lies between a run of leading whitespace and a run of trailing whitespace. |
| Store.StripIsTrimmedSlice | app.py:148 | `strip()` gives a slice of the input with only whitespace cut off on either side, which begins and ends with non-whitespace. |
| Store.StripEmptyIff | app.py:113 | A stripped field is empty exactly when it is all whitespace. |
| Store.StripIdempotent | app.py:201-202 | Stripping twice is stripping once. |
| Store.NewClientOutcome | app.py:110-130 | `add_client` accepts exactly a name that is not all whitespace, plus a numeric amount for a child. The client has the fresh id and the stripped name. A top-level client is Hourly at 0.0; a child has the form's rate. |
| Store.EditParentChoices | app.py:144 | The edit form offers exactly the top-level clients other than the client itself. |
| Store.TaskByDisplay | app.py:266-277 | A found task has exactly the chosen "client – description" text; none is found exactly when no task has it. |
| Store.FirstByDisplay | app.py:273-277 | The task found is the first in the table with the chosen text, as `.iloc[0]` of the mask takes it. |
| Store.NewEntryOutcome | app.py:266-289 | `log_hours` accepts exactly an offered task and hours above zero. The entry is unpaid, with the fresh id, the given hours, the stripped description and the date (today's if empty). Its TaskID is that of the first task whose display text is the stripped selection. |
| Store.PendingCount | app.py:533 | The pending count is at most the number of tasks. |
| Store.PendingCountAppend | app.py:533 | The count over two stretches of tasks adds up. |
| Store.SetStatusPendingCount | app.py:238 | Setting a status changes the pending count by exactly the rows with that id: their pending ones go, and all of them come back unless the status is "Completed". |
| Store.PendingWithIdBounded | app.py:533 | The pending tasks with an id are no more than all pending tasks, and no more than all tasks with that id. |
| Store.CompletingNeverRaisesPending | app.py:238 | Marking a task Completed never raises the pending count. |
| Store.AddKeepsTwoLevel | app.py:108-130 | Adding a client whose parent comes from the form's choices keeps the hierarchy two-level. |
| Store.EditKeepsTwoLevel | app.py:144-164 | Editing a client that has no children, to a parent from the form's choices, keeps the hierarchy two-level. |
| Store.Store.constructor | app.py:72 | The store holds the three loaded tables, and with their ids unique it is valid for every handler. |
| Store.Store.AddClient | app.py:105-134 | Appends the new client exactly when the form is accepted, and otherwise leaves the clients alone. Tasks and entries are untouched, and ClientIDs stay unique. |
| Store.Store.EditClient | app.py:136-168 | Returns ClientNotFound for an unknown id. Otherwise it returns the form's outcome and, when accepted, sets name, parent and payment on every row of that id. Nothing else changes. |
| Store.Store.AddTask | app.py:192-216 | Refuses exactly an all-whitespace description. Every other description appends one Pending task with the fresh id and the stripped fields, and the pending count grows by one. Clients and entries are untouched. |
| Store.Store.UpdateStatus | app.py:224-241 | Fails with TaskNotFound exactly when no task has the id. Otherwise it sets that status on those rows with no transition rule. Nothing else changes. |
| Store.Store.LogHours | app.py:257-293 | Appends exactly the entry `log_hours` accepts, and nothing when it refuses. Clients and tasks are untouched. |
| Store.Store.MarkPaid | app.py:399-405 | Sets Paid on every entry of that id. Nothing else changes. |
| Store.MarkPaidOnlyRaises | app.py:402 | After `mark_paid` an entry is paid exactly when it was paid or has the id. No other field changes, and Paid is never set back to false. |
| Loading.FreshInstallFails | app.py:55-61 | As written, with no workbook (or no Clients sheet) `load_data` fails with a KeyError on PaymentAmount. |
| Loading.CorrectedLoad | app.py:39-72 | Corrected, a first start loads three empty tables. With a Clients sheet present, the corrected loader agrees with `load_data`. |
| Loading.SaveLoadRoundTrip | app.py:59-83 | What `save_data` writes, `load_data` reads back unchanged, provided no client has an empty PaymentType. |
| Loading.LoadDefaults | app.py:59-65 | A loaded client's empty ParentID is "". An empty PaymentType is Hourly and an empty PaymentAmount is 0.0. A task sheet without a Status column loads as Pending. |

## Left out

- The Excel file itself (`pd.ExcelFile`, `read_excel`, `to_excel`): a workbook is a value. The model of `save_data` takes an empty text to be written as an empty cell, which reads back as NaN.
- Loading.SaveLoadRoundTrip: task cells are carried as text, so an empty task field that would read back as NaN is not modelled.
- `fetch_eur_rate`, a network call: the model uses one outcome for every row of a request, where the source fetches once per row. A raised fetch falls back to 1.0 as in the source.
- Floating point, NaN and infinity: `real` arithmetic throughout. An entry whose client is missing has NaN earnings, which pandas' `sum` skips; the model counts them as 0.
- Date parsing (`pd.to_datetime(...).to_period('M')`): the month of an entry comes from the parameter `monthOf`, and an unparseable date is not modelled.
- Id lookups take the first record with an id, while `set_index(...).to_dict()` keeps the last. The left merges at app.py:262-263, app.py:324-330 and app.py:422-426 go further: they repeat a row once per task or client sharing its TaskID or ClientID. The model joins each row with one record. All of these agree only because ids are fresh uuids (`Valid()` keeps them unique).
- Flask routing, `request` parsing, `flash`, `redirect`, `render_template`, `jsonify`: handler inputs are parameters and outcomes are results.
- GET requests that only render a form (the choices they show are modelled as `AddParentChoices` and `EditParentChoices`).
- Store.Store.AddClient, Store.Store.EditClient: a `rate_amount` that `float()` cannot parse raises in the source, an error page. The model returns BadAmount. The stored tables are the same either way, since `save_data` is not reached.
- Store.Store.UpdateStatus: a request without a status stores None (NaN) in the source; the model takes the status as text.
- Store.EditKeepsTwoLevel: it needs the edited client to have no children. The edit form does not prevent giving a parent to a client that has children, which makes a three-level hierarchy.
- Store.Store.AddTask: `add_task` writes the new row by position, as TaskID, ClientID, TaskDescription, CreatedDate, Status, ShortName. `load_data` appends a missing Status, ShortName or CreatedDate column at the end of the frame, so on a Tasks sheet that lacked one of them the positional write puts values in the wrong columns (a sheet without Status gives the new task ShortName "Pending" and Status short_name). The model assumes the columns are in the order the program creates them.
- Store.Store.LogHours: `log_hours` writes the new row by position, as EntryID, TaskID, Date, Hours, Description, Paid. On a Timesheet sheet that lacked Paid or Hours, `load_data` appends that column at the end, and the positional write misplaces the values the same way. The model assumes the program's own column order.
- The timesheet view's reformatting of Date (`pd.to_datetime(...).dt.strftime('%Y-%m-%d')`, app.py:331): rows carry the date text as stored.
- The second, unrouted `view_timesheet` (app.py:361-396): it is never reachable.
- The `__main__` block (browser launch and timer thread), and concurrent requests overwriting each other's saves.

## Findings

| source | as written | input that shows it | evidently intended | confidence | as-written member | corrected member |
|---|---|---|---|---|---|---|
| app.py:484-487, 522-524 | `eur_rate` is assigned only inside the per-parent loop, so it is unbound when no summary row is built. The render then raises UnboundLocalError. | `/reports/monthly?month=1999-01` when no entry falls in January 1999, or a `client=` naming no top-level client | A report with no rows and zero totals, converted at the fallback rate | not executed | Summary.UnknownMonthFails | Summary.CorrectedReportTotals |
| app.py:39, 55, 61 | With no workbook, or a workbook without a Clients sheet, the empty Clients frame has a `ProjectRate` column but no `PaymentAmount`. `clients['PaymentAmount']` raises KeyError. | The first start, before `Data/freelance_organizer.xlsx` exists | Three empty tables | not executed | Loading.FreshInstallFails | Loading.CorrectedLoad |
