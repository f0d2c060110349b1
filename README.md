# Brokerage admin: collaboration status, listing, revenue and table updates

A model of the logic inside the brokerage administration web application
(`app.py`): the lifecycle status that the collaborations page derives from
due dates, the page's filters and sorts, the revenue figures on the dashboard
and the two revenue pages, and the single-row table writes of the property
and collaboration handlers, including the cascade deletes of interactions.

Dates are whole day numbers and "today" is a parameter. Amounts are exact
reals. The source stores them as DECIMAL(15,2); the dashboard adds them as
`Decimal`, while the revenue pages convert them to binary floats and round
to two places. Amounts are taken to carry at most two decimal places, so
storing them in a DECIMAL(15,2) column changes nothing within the column's range (up to 9999999999999.99; larger amounts are refused or clipped by MySQL, which is not modelled). Query results are sequences of rows in primary-key order.
The queries of the collaborations page (`SELECT * FROM collaborations`,
app.py:326) and of the detail pages have no ORDER BY, so that order is an
assumption about what MySQL returns. The listing's filters keep the order
they are given, and its sorts fix the order only up to rows with equal due dates.

Modules:

- `Records` (`records.dfy`): the rows of the four tables.
- `Tables` (`tables.dfy`): `DELETE ... WHERE` and `UPDATE ... WHERE` over a table held as a sequence, key uniqueness and referential integrity.
- `Ordering` (`ordering.dfy`): the stable sort of Python's `list.sort`, ascending and with `reverse=True`.
- `Lifecycle` (`lifecycle.dfy`): Active / Due Soon / Expired.
- `Listing` (`listing.dfy`): the collaborations page.
- `Revenue` (`revenue.dfy`): dashboard statistics and the actual and adjusted revenue reports.
- `Store` (`store.dfy`): a class holding the four tables, with one method per write handler and one function per detail page.
- `Scenarios` (`scenarios.dfy`): two client runs that use only the handlers' contracts.
- `Wrappers` (`wrappers.dfy`): `Option`.

Notes on how the code behaves, which the model follows:

- `edit_property` stores whatever status string the form sends (app.py:276). A property's status is therefore any string, not only Available or Sold.
- `delete_interaction` deletes the interaction by its own id alone (app.py:489). The collaboration id in the URL plays no part.
- `mark_sold` on a missing id runs an UPDATE that matches no row (app.py:240), so the table is unchanged. The handler then fails at `prop['title']` (app.py:249), because `prop` is None.

## Model

| member | source | states |
|---|---|---|
| `Lifecycle.StatusOf` | app.py:334-341 | Expired exactly when the due date is before today; Due Soon exactly when it is between today and today + 30, both ends included; Active exactly when it is later |
| `Lifecycle.StatusBoundaries` | app.py:338-341 | yesterday is Expired, today and today + 30 are Due Soon, today + 31 is Active |
| `Lifecycle.StatusMonotone` | app.py:338-341 | a later due date never yields an earlier status |
| `Lifecycle.StatusAdvancesWithTime` | app.py:338-341 | as today advances a row only moves from Active towards Expired |
| `Lifecycle.StatusShiftInvariant` | app.py:338-341 | the status depends only on the distance between due date and today |
| `Listing.CollaborationsPage` | app.py:331-359 | the loop with its `continue`s and the optional sort yields the specified listing; with `due_asc` / `due_desc` the result is sorted non-decreasing / non-increasing by due date, is a permutation of all tagged rows, and keeps rows with equal due dates in table order |
| `Listing.ProcessedSelects` | app.py:333-352 | the loop's output is exactly the tagged rows of the collaborations the filter keeps, in table order |
| `Listing.ProcessedIsSubsequence` | app.py:333-352 | for every filter, the listed collaborations form a subsequence of the table, and each listed row is its stored row plus the status computed from its own due date |
| `Listing.KeptByFilter` | app.py:345-350 | `pending` keeps a row iff its pending amount is non-zero, `completed` iff it is zero, `due_soon` iff its status is Due Soon, and any other value keeps it |
| `Listing.PendingSelects` | app.py:345-346 | filter `pending` lists exactly the collaborations with a non-zero pending amount, in table order |
| `Listing.CompletedSelects` | app.py:347-348 | filter `completed` lists exactly the collaborations with a zero pending amount, in table order |
| `Listing.DueSoonSelects` | app.py:349-350 | filter `due_soon` lists exactly the collaborations whose freshly computed status is Due Soon |
| `Listing.OtherFilterKeepsAll` | app.py:345-352 | any other filter value, or none, lists every row in table order |
| `Listing.PendingCompletedPartition` | app.py:345-348 | the `pending` and `completed` listings together hold every collaboration exactly once |
| `Ordering.SortPermutes` | app.py:354-357 | the sort returns exactly the rows it was given |
| `Ordering.SortSorted` | app.py:354-357 | the sort's output is ordered by due date, reversed for `due_desc` |
| `Ordering.SortStable` | app.py:354-357 | rows with the same due date keep their relative order, as Python's stable sort keeps them |
| `Revenue.PropertyRevenueIsSoldTotal` | app.py:507-509 | SUM(sold_price) over rows with status Sold, with NULL read as 0, is the sum of the sold rows' prices, and 0 when nothing is sold |
| `Revenue.CollaborationRevenueIsPaidTotal` | app.py:512-514 | SUM(paid_amount), with NULL read as 0, is the sum of all paid amounts, and 0 on an empty table |
| `Revenue.ActualRevenue` | app.py:507-520 | the property total is the sold-price sum, the collaboration total is the paid sum, the grand total is their sum, and profit equals the grand total |
| `Revenue.AdjustedRevenue` | app.py:543-558 | each component is 0.9 times its sum, the grand total is the sum of the adjusted components, and profit equals the grand total |
| `Revenue.AdjustedIsNinetyPercent` | app.py:555-558 | every adjusted figure, including grand total and profit, is 0.9 times the actual figure |
| `Revenue.RevenueNonNegative` | app.py:555-557 | with non-negative amounts, 0 <= adjusted grand total <= actual grand total |
| `Revenue.Dashboard` | app.py:130-151 | the sold count is the number of prices the Sold-row SUM adds; it is 0 exactly when no row is Sold, and then property revenue is 0; sold count <= property count, completed count <= collaboration count, total revenue is the sum of the two revenues, each adjusted component is 0.9 times its revenue, and total adjusted revenue is 0.9 times total revenue |
| `Revenue.SoldCountIsSoldPrices` | app.py:133-143 | `COUNT(*) WHERE status='Sold'` counts exactly the rows whose `sold_price` the revenue SUM adds, and is 0 exactly when no row is Sold |
| `Tables.UpdateNothingSelected` | app.py:240 | an UPDATE whose WHERE matches no row leaves the table unchanged |
| `Revenue.DashboardMatchesReports` | app.py:142-151 | all six dashboard revenue figures equal those of the actual and adjusted revenue pages: both revenues, both adjusted components and both totals |
| `Revenue.CompletedCountMatchesListing` | app.py:139-140 | the dashboard's completed count is the length of the `completed` listing, and the other collaborations are those the `pending` listing shows |
| `Revenue.MarkSoldRevenue` | app.py:240 | marking a property sold at p replaces that row's old contribution to property revenue with p |
| `Revenue.MarkSoldMissingRevenue` | app.py:240 | marking sold an id that no row has leaves property revenue unchanged |
| `Records.EditFormProfit` | app.py:419-420 | the edit form's profit (paid - pending) is 2 * paid - total on a row whose pending = total - paid |
| `Tables.CascadeRefs` | app.py:74-94 | removing a parent together with its children (ON DELETE CASCADE) keeps every remaining child pointing at an existing parent |
| `Store.Store.constructor` | app.py:38-98 | freshly created tables are empty and satisfy the store invariant |
| `Store.Store.AddProperty` | app.py:193-207 | appends one row with the next id, status Available and sold price 0; nothing else changes |
| `Store.Store.EditProperty` | app.py:268-278 | rewrites every column but the id of the row with that id; other rows and tables are unchanged |
| `Store.Store.MarkSold` | app.py:240 | only the row with that id changes, and only its status (to Sold) and sold price; property revenue changes accordingly; a missing id changes nothing |
| `Store.Store.DeleteProperty` | app.py:294 | removes the property and all of its interactions and nothing else; integrity is kept |
| `Store.Store.AddInteraction` | app.py:306-312 | succeeds iff the property exists, then appends one interaction dated today; otherwise nothing changes |
| `Store.Store.PropertyDetail` | app.py:217-227 | None iff no row has that id; otherwise that row and a permutation of its interactions sorted by date, newest first |
| `Store.Store.AddCollaboration` | app.py:431-447 | appends one row with the next id and pending = total - paid; keeps the pending rule for the whole table |
| `Store.Store.EditCollaboration` | app.py:391-408 | rewrites the row with that id with pending = total - paid; other rows and tables are unchanged; keeps the pending rule |
| `Store.Store.DeleteCollaboration` | app.py:580 | removes the collaboration and all of its interactions and nothing else; integrity is kept |
| `Store.Store.AddCollabInteraction` | app.py:467-474 | succeeds iff the collaboration exists, then appends one note with the form's date; otherwise nothing changes |
| `Store.Store.DeleteCollabInteraction` | app.py:489 | removes the interaction with that id, whichever collaboration owns it; nothing else changes |
| `Store.Store.CollaborationDetail` | app.py:368-377 | None iff no row has that id; otherwise that row and a permutation of its interactions sorted by date, newest first |
| `Scenarios.SaleScenario` | app.py:232-240 | a property added at price 100 and marked sold at 120 is Sold with sold price 120, and property revenue is then 120 |
| `Scenarios.DueSoonScenario` | app.py:331-352 | a collaboration of 1000 with 400 paid, due in ten days, is the one row the `due_soon` listing shows, Due Soon with 600 pending |

## Left out

- Flask routing, form and query parsing, templates, redirects and the 404 responses are web glue. The detail functions return `None` where the handlers answer 404. The route decorator at app.py:455 on `add_collab_interaction` uses the placeholder `<cid>`, while the function's parameter is `collab_id`, so that URL fails in Flask; routing is not part of this model.
- Login, sessions, logout and the role check that chooses between the actual and the adjusted dashboard template (app.py:103-119, 169-172, 590-593) are an exact-match lookup and a template choice. Only the figures are modelled.
- The sold-notification e-mail (app.py:245-257) is a call into an SMTP library. A failed send is not caught in the source.
- MySQL connections, cursors and the table DDL are not modelled. Query results are sequences of rows, and the DDL appears only as the store invariant: unique ascending keys and foreign keys with cascade.
- Store.Store.AddCollaboration: computes pending = total - paid on exact reals and stores all three as given. The handler subtracts binary floats (app.py:432-434), and MySQL rounds each value on its own to DECIMAL(15,2). With more than two decimal places the stored pending can differ from the stored total minus paid: total 0.017 and paid 0.004 are stored as 0.02, 0.00 and 0.01. The pending rule the store keeps holds only for two-decimal amounts.
- Store.Store.EditCollaboration: the same as for AddCollaboration (app.py:392-394). Float subtraction and column rounding are not modelled.
- Store.Store.MarkSold: stores the sold price as given. The handler's `float(...)` conversion (app.py:234) and MySQL's rounding to DECIMAL(15,2) are not modelled.
- Store.Store.EditProperty: stores the price and sold price as given. The `float(...)` conversion (app.py:277) and the rounding to DECIMAL(15,2) are not modelled.
- Revenue.ActualRevenue: uses exact reals. The `float(...)` conversions and `round(..., 2)` of the revenue pages (app.py:509-527) are not modelled.
- Revenue.AdjustedRevenue: uses exact reals, with no binary floating point and no rounding.
- Revenue.Dashboard: uses exact reals. The `float(...)` conversions of the dashboard's Decimal values are not modelled.
- ISO date strings (app.py:336-337, and the form dates) are taken as day numbers.
- Revenue.PropertyRevenue: `status='Sold'` is compared as an exact string. A case-insensitive collation would also match other letter cases and, under a PAD SPACE collation, trailing spaces. The same comparison decides the dashboard's `COUNT(*) ... WHERE status='Sold'` (app.py:133), so `Revenue.Dashboard`'s sold count is stated under the same exact-match reading.
- Store.Store.AddInteraction: a refused insert leaves the AUTO_INCREMENT counter unchanged. The database may use up an id in that case.
- Store.Store.MarkSold: the race between two concurrent submissions (app.py:238) and the crash when the id is missing (`prop` is None at app.py:249) are left out; only the UPDATE is modelled.
- Store.Store.PropertyDetail: rows with equal dates come back in table order. SQL leaves that order unspecified, so the contract states only sorted by date and a permutation.
- The read-only list page for properties (app.py:175-186) and the GET branches of the edit forms simply return stored rows. They are not modelled apart from the edit form's profit figure.
- The scripts `database.py`, `data.py` and `static/inspect_db.py` create or describe tables and print. They have no logic to model.
