# Dharashakti business rules in Dafny

Dharashakti is a small shop-management web application. Its backend is an Express
server over MySQL, and its frontend is a React application.

- The backend keeps employees, attendance, salary advances, sales, purchases,
  expenses, products and an activity log.
- The frontend lets staff do the following:
  - log in behind a captcha;
  - be watched by a session watchdog and an idle screen lock;
  - mark attendance, read a payroll ledger and enter and browse sales and stock;
  - filter reports, read a profit and loss statement, record expenses;
  - administer accounts from a master panel.

  Each page applies role checks of its own, and a handful of Redux slices hold
  client-side lists.

This project models those business rules as Dafny code and proves what they promise.

- **Backend.** `Server.Store` is a class whose fields are the database tables. Each
  HTTP handler is a method proved against a pure transition function. Examples:
  - `LoginTransition` for the login;
  - `Upsert` for the attendance post;
  - `UpdateTransition` for the master update.
- **Screens.** Each page is a class whose fields are its React state. Each handler is
  a method. Network answers, clocks and random draws are passed in as parameters:
  - a `response` or `outcome`;
  - `today` or `now`;
  - `draw`, `d1` and `d2`.
- **Derived values.** Totals, filters, sort orders, pages, payroll figures and stock
  statuses are functions with lemmas.
- **Redux reducers.** These are small classes with frame-exact `ensures`.

Shared modules define JavaScript values as the code uses them:
- `Common`: numbers that may be absent or numeric strings, `Number(x) || 0`,
  truthiness, `filter`, `reduce` sums, `reverse`, `new Set`, and a stable sort;
- `Text`: ASCII case mapping, `includes`, `trim`, `split(c)[0]` and code-unit string
  comparison;
- `Dates`: a proleptic Gregorian calendar and ISO dates.

## Model

| member | source | states |
|---|---|---|
| Server.FirstMatch | backend/server.js:34-37 | The first employee row whose username and password both match; `None` exactly when no row matches. |
| Server.LoginTransition | backend/server.js:34-50 | No matching row gives 401 and leaves the table unchanged. A matching blocked row gives 403 and leaves the table unchanged. Otherwise the matched unblocked row alone gets the new session token, and the returned user carries it. |
| Server.Store.Login | backend/server.js:29-54 | The credential scan loop yields exactly `LoginTransition`'s result and new employee table. |
| Server.LoginReplacesSession | backend/server.js:42-47 | After a successful login, the session check for that user reports the new token and no longer reports any earlier token. |
| Server.BlockedLoginKeepsToken | backend/server.js:38-42 | The blocked check precedes the token write: a blocked employee with the right password gets 403, and their stored token is unchanged. |
| Server.FindById | backend/server.js:59 | The first row with the given id; `None` exactly when no row has it. |
| Server.SessionLookup | backend/server.js:59-67 | An unknown id gives 404 (`None`). Otherwise the answer holds that row's stored token, and `isBlocked` is true exactly when the stored flag equals 1. |
| Server.Store.SessionCheck | backend/server.js:56-71 | Returns `SessionLookup` of the current table. |
| Server.AppendKeepsIds | backend/server.js:80-82 | Appending a row with the next auto-increment id keeps ids strictly increasing and below the counter. |
| Server.ClampRole | backend/server.js:92 | The stored role is Admin, Manager or Worker. It differs from Worker exactly when the designation is "Admin" or "Manager", and it then equals the designation. |
| Server.GeneratedId | backend/server.js:77 | The generated employee id is 8 decimal digits whose value is 10000000 plus the random draw, so it lies in [10000000, 99999999]. |
| Server.Store.RegisterAdmin | backend/server.js:75-87 | Appends exactly one unblocked row with role 'Admin', the posted photo and the generated id as username, and returns that id. |
| Server.Store.RegisterEmployee | backend/server.js:89-108 | Appends exactly one unblocked row with role `ClampRole(designation)`, the posted photo and the generated id, and returns that id. |
| Server.Store.ListEmployees | backend/server.js:110-115 | One summary (id, name, username, role, photo, isBlocked) per employee, in table order. |
| Server.Store.DeleteEmployee | backend/server.js:117-122 | Removes exactly the rows with that id and keeps the rest in order. |
| Server.FilterKeepsOrder | backend/server.js:117-122 | Deleting rows keeps the id ordering that the table invariant needs. |
| Server.SubseqKeepsIncreasing | backend/server.js:119 | Any subsequence of an id-increasing table is id-increasing, and its rows come from the table. |
| Server.Upsert | backend/server.js:129-131 | ON DUPLICATE KEY UPDATE on (employee_id, date): at most one row is added, the posted row is present afterwards, every row is either an old row or the posted one, and every row with another key survives. |
| Server.UpsertGrowsIffNewKey | backend/server.js:129-131 | A row is added exactly when no row holds the posted (employee_id, date); otherwise the row count stays the same. |
| Server.UpsertKeepsKeysUnique | backend/server.js:129-131 | (employee_id, date) stays a key of the attendance table after the post. |
| Server.UpsertStatus | backend/server.js:129-131 | After the post, the status of the posted key is the posted status, and every other key's status is unchanged. |
| Server.UpsertOverwrites | backend/server.js:129-131 | A later status for the same key replaces the earlier one: two posts equal the last post alone. |
| Server.UpsertIdempotent | backend/server.js:129-131 | Posting the same status twice equals posting it once. |
| Server.Store.MarkAttendance | backend/server.js:126-134 | The attendance table becomes `Upsert` of the old table. |
| Server.MarksOf | backend/server.js:138 | The (date, status) pairs of one employee are exactly their attendance rows. |
| Server.History | backend/server.js:138 | The history is a permutation of the employee's marks, sorted by date newest first. |
| Server.HistoryNewestFirst | backend/server.js:138 | In the history, no earlier entry is dated before a later one. |
| Server.Store.AttendanceHistory | backend/server.js:136-141 | Returns `History` of the table for that employee. |
| Server.Store.RecordAdvance | backend/server.js:143-150 | Appends exactly one payment dated today; the existing payments are untouched. |
| Server.MaxSi | backend/server.js:156 | `MAX(si)`: `None` when no sale has an SI, otherwise an SI that occurs and bounds all the others. |
| Server.NextSiOf | backend/server.js:157 | The next SI is greater than every stored SI, and it is 1 or one more than an existing SI. |
| Server.Store.NextSi | backend/server.js:154-159 | The loop over the sales table returns `NextSiOf(sales)`. |
| Server.Store.InsertSale | backend/server.js:161-168 | Appends the posted sale. |
| Server.ProfitLossTotals | backend/server.js:170-183 | An empty table's SUM is NULL and the "or 0" fallback of lines 178-180 reads it as 0: each total of an empty table is 0. |
| Server.ProfitLossSkipsMissing | backend/server.js:172-180 | Rows with a NULL amount add nothing: each total equals the total over the rows that carry an amount, as SUM skipping NULLs does. |
| Server.ProfitLossAdditive | backend/server.js:172-180 | The totals of two batches of rows together are the sums of the batches' totals, for all three columns. |
| Server.InsertSaleRaisesTotal | backend/server.js:161-183 | Inserting a sale raises the sales total by that sale's amount and leaves the purchase total unchanged. |
| Server.Store.ProfitLoss | backend/server.js:170-183 | Returns `ProfitLossTotals` of the three tables. |
| Server.ReportFor | backend/server.js:187-199 | Three categories are accepted and any other gives 400. "sales" and "purchases" return a permutation of their table sorted newest first; "stock" returns the products unchanged. |
| Server.Store.GetReport | backend/server.js:187-199 | Returns `ReportFor` of the current tables. |
| Server.Store.DashboardStats | backend/server.js:201-209 | The counts are the numbers of sales and product rows. |
| Server.Take | backend/server.js:215 | `LIMIT n`: a prefix of length min(n, length). |
| Server.RecentLogs | backend/server.js:215 | At most 50 entries, newest first: entry i is the i-th most recent log row. |
| Server.Store.RecentActivity | backend/server.js:213-218 | Returns `RecentLogs` of the log table. |
| Server.SetColumn | backend/server.js:223 | Writing `role`, `password`, `name`, `username`, `designation`, `photo` or `currentSessionId` stores the value as text in that field and changes no other field. `isBlocked` and `salary_per_day` take the value as a number and reject a non-numeric one. A listed column the model does not follow leaves the row's modelled fields unchanged, and the id is never changed. |
| Server.SetColumnAccepts | backend/server.js:223 | The column write succeeds exactly when `ColumnAccepts` holds. |
| Server.UpdateDetail | backend/server.js:225 | The log text starts with the field name uppercased. |
| Server.UpdateTransition | backend/server.js:220-228 | An unknown column or bad value changes nothing. Otherwise exactly the row whose id equals targetId gets the column, and exactly one log row, "<FIELD> updated for <targetName>", is appended. |
| Server.UpdateRow | backend/server.js:223 | Only the target row is rewritten, and its id is kept. |
| Server.UpdateTouchesOneRow | backend/server.js:223 | With unique ids, if the update changed row i then it did not change any other row j. |
| Server.Store.UpdateSystem | backend/server.js:220-228 | The new tables and result are exactly `UpdateTransition`'s. |
| Ledger.MaskId | frontend/src/component/Employee/EmployeeLedger/EmployeeLedger.jsx:24-28 | A falsy id shows "---". A short id is shown whole. A longer one shows "XXXX" followed by its last four characters. |
| Ledger.MaskHidesAllButLastFour | frontend/src/component/Employee/EmployeeLedger/EmployeeLedger.jsx:27 | Two long ids that end in the same four characters are masked alike. |
| Ledger.StatsBounded | frontend/src/component/Employee/EmployeeLedger/EmployeeLedger.jsx:84-94 | present + absent + halfDay is at most the number of records in the month, which is at most the number of records. |
| Ledger.YearIgnored | frontend/src/component/Employee/EmployeeLedger/EmployeeLedger.jsx:81-89 | The counters depend only on month and status: records from another year with the same month count the same. |
| Ledger.DayStatusesDomain | frontend/src/component/Employee/EmployeeLedger/EmployeeLedger.jsx:84-87 | The calendar map has a key exactly for each date some record carries. |
| Ledger.DayStatusesLastWins | frontend/src/component/Employee/EmployeeLedger/EmployeeLedger.jsx:84-87 | When several records share a date, the last one decides that day's status. |
| Ledger.TileClass | frontend/src/component/Employee/EmployeeLedger/EmployeeLedger.jsx:146-152 | A day gets cal-present, cal-absent or cal-halfday exactly when its status is Present, Absent or Half-Day, and no class otherwise. |
| Ledger.CountStep | frontend/src/component/Employee/EmployeeLedger/EmployeeLedger.jsx:84-94 | One record raises at most the matching counter by one, and only inside the month; it overwrites its day in the map. |
| Ledger.CountMonth | frontend/src/component/Employee/EmployeeLedger/EmployeeLedger.jsx:80-94 | The forEach loop yields exactly `MonthStats` and `DayStatuses` of the records. |
| Ledger.DailyRate | frontend/src/component/Employee/EmployeeLedger/EmployeeLedger.jsx:107-112 | The first truthy of salary_per_day, salary and perDaySalary, as a number, else 0. |
| Ledger.ZeroTextStopsFallback | frontend/src/component/Employee/EmployeeLedger/EmployeeLedger.jsx:107-112 | The string "0" is truthy, so salary_per_day "0" gives rate 0 even when salary is set. |
| Ledger.AdvanceAdds | frontend/src/component/Employee/EmployeeLedger/EmployeeLedger.jsx:114 | The advance total covers every payment: one more payment adds exactly its amount, with no month filter. |
| Ledger.EarnedSalary | frontend/src/component/Employee/EmployeeLedger/EmployeeLedger.jsx:115-118 | Earned is Math.round(P*r + H*r/2): within one half of the exact value, with halves rounded up. |
| Ledger.EarnedExactWhenEven | frontend/src/component/Employee/EmployeeLedger/EmployeeLedger.jsx:115-118 | When the rate or the half-day count is even, there is nothing to round. |
| Ledger.EarnedExample | frontend/src/component/Employee/EmployeeLedger/EmployeeLedger.jsx:115-118 | Rate 500 with 20 present and 2 half-days earns 10500, and one half-day at 333 rounds to 167. |
| Ledger.NetPayable | frontend/src/component/Employee/EmployeeLedger/EmployeeLedger.jsx:119 | Net plus advances equals earned, and net is negative exactly when advances exceed earned. |
| Ledger.NetPayableCanBeNegative | frontend/src/component/Employee/EmployeeLedger/EmployeeLedger.jsx:119 | A 500 advance against one 200-rate half-day leaves -400: the payable is not clamped. |
| Ledger.LedgerScreen.ViewLedger | frontend/src/component/Employee/EmployeeLedger/EmployeeLedger.jsx:62-103 | Selects the employee. Both requests are awaited before anything is set, so only when both succeed do the payments replace the history and the counters and calendar become MonthStats and DayStatuses of the records; if either fails all three are kept. |
| Ledger.LedgerScreen.HandlePayment | frontend/src/component/Employee/EmployeeLedger/EmployeeLedger.jsx:123-142 | Only Admin or Accountant, with an employee selected, sends the advance request. Anything else changes nothing. A saved advance clears the amount field and reloads the ledger: when both reloads succeed the history, counters and calendar are those of the fetched data, otherwise they are kept. |
| Roles.LoweredRole | frontend/src/component/Employee/Attendance/Attendance.jsx:7 | `role?.toLowerCase()`: absent stays absent, and the length is kept. |
| Roles.LowerRoleNames | frontend/src/App.js:91-92 | The four role names lower to admin, accountant, manager and worker. |
| Roles.ExactRolesPassLoweredChecks | frontend/src/component/Sales/SalesTable.jsx:12 | A role that passes the exact Admin/Accountant check also passes the lower-cased expense and attendance checks. |
| Roles.CaseMatters | frontend/src/component/Employee/ExpenseManager/ExpenseManager.jsx:11-12 | "admin" may add expenses but fails the exact-case Admin check of the sales and stock pages. |
| App.UserOf | frontend/src/component/Login.jsx:57-63 | The stored user is the server row plus its session token and the login time. |
| App.Guard | frontend/src/App.js:88-105 | No user goes to /login. adminOnly admits only the role "admin" in any case. managerAllowed admits only admin or manager. Each refusal goes home with its alert text. |
| App.AccountantLockedOutOfManagement | frontend/src/App.js:99-102 | An Accountant is sent home from every management route, although the pages behind them authorise Accountant. |
| App.AdminReachesEverything | frontend/src/App.js:91-104 | Any capitalisation of admin renders every route. |
| App.RestrictionsNested | frontend/src/App.js:94-104 | Passing adminOnly implies passing managerAllowed, which implies passing the basic check. |
| App.Shell.constructor | frontend/src/App.js:28-29 | The user starts as the stored user, unlocked, with the idle timer armed when a user exists. |
| App.Shell.SetUser | frontend/src/App.js:66-83 | A new user re-arms the idle timer from zero when present and disarms it otherwise. |
| App.Shell.LogoutUser | frontend/src/App.js:57-61 | Clears the stored and current user, goes to /login and stops the idle timer. |
| App.Shell.StatusCheck | frontend/src/App.js:38-50 | Only a blocked answer to a signed-in user alerts and logs out. A failed request or an unblocked answer changes nothing. |
| App.Shell.Activity | frontend/src/App.js:70-76 | Any activity event restarts the idle timer from zero while a user is signed in. |
| App.Shell.Elapse | frontend/src/App.js:72 | The screen locks exactly when an armed timer reaches 300000 ms with no activity; until then the elapsed time accumulates, and an unarmed or fired timer leaves it as it was. |
| Login.RightSumPasses | frontend/src/component/Login.jsx:38 | Typing the captcha sum passes the parseInt check. |
| Login.TrailingTextPasses | frontend/src/component/Login.jsx:38 | parseInt accepts "7 apples" for 7 and rejects "seven". |
| Login.LoginForm.constructor | frontend/src/component/Login.jsx:9-30 | Empty fields and a fresh captcha of two numbers in 1..10 with their sum. |
| Login.LoginForm.RefreshCaptcha | frontend/src/component/Login.jsx:22-27 | Both numbers lie in 1..10, the total is their sum, and the answer field is cleared. |
| Login.LoginForm.HandleSubmit | frontend/src/component/Login.jsx:35-79 | A wrong captcha refreshes it and sends nothing. A blank trimmed id sends nothing. Otherwise the trimmed id and password go out. Success stores and sets the user and goes home. Failure shows the server message, or the connection error when the message is absent or empty, and refreshes the captcha. |
| Login.LoginForm.CheckCaptcha | frontend/src/component/Login.jsx:38-42 | The answer passes exactly when `parseInt` of it equals the total; a failure shows the captcha error and draws a new captcha with an empty answer, and a pass changes nothing. |
| Login.LoginForm.Send | frontend/src/component/Login.jsx:47-77 | The request carries the trimmed id and the password, loading ends, and the answer either logs the user in or shows the error with a new captcha. |
| Login.LoginForm.Accept | frontend/src/component/Login.jsx:56-70 | The stored user and the current user are the server's row with the session id and login time, the success message shows, and the app is at "/". |
| Login.LoginForm.Reject | frontend/src/component/Login.jsx:73-77 | The message is the server's, or the connection error when it is absent or empty; a new captcha is drawn and its answer field cleared. |
| Navbar.PollAlerts | frontend/src/component/Navhtml.jsx:24-41 | No check runs without a user id and local token. A takeover is reported exactly when the server token is non-empty and differs from the local one. Blocked is reported exactly when the server says so. A failed request reports nothing. |
| Navbar.NavBar.ForceLogout | frontend/src/component/Navhtml.jsx:13-19 | Removes the stored user, clears the user, closes the sidebar and goes to /login. |
| Navbar.NavBar.Poll | frontend/src/component/Navhtml.jsx:26-42 | Any alert forces logout. No alert changes nothing. |
| Navbar.SecondLoginEvictsFirst | frontend/src/component/Navhtml.jsx:31-33 | A second login to the same account replaces the session id (backend/server.js line 42), so the first browser's next poll reports the takeover. |
| Navbar.LatestLoginSurvives | frontend/src/component/Navhtml.jsx:31-38 | The browser holding the latest token is never logged out while the account is unblocked. |
| ScreenLock.LockScreen.Type | frontend/src/component/Core_Component/ScreenLock/ScreenLocl.jsx:33 | The input holds the typed text. |
| ScreenLock.LockScreen.HandleUnlock | frontend/src/component/Core_Component/ScreenLock/ScreenLocl.jsx:8-18 | The stored password unlocks and clears the error. Anything else keeps the lock, flags the error, empties the input and alerts. |
| ScreenLock.LockScreen.KeyPress | frontend/src/component/Core_Component/ScreenLock/ScreenLocl.jsx:34 | Enter behaves exactly like the unlock button, and other keys do nothing. |
| AttendanceScreen.Mask | frontend/src/component/Employee/Attendance/Attendance.jsx:17-21 | "---" for a missing id; a short id is shown whole. |
| AttendanceScreen.MaskAgreesWithLedger | frontend/src/component/Employee/Attendance/Attendance.jsx:17-21 | The attendance page masks ids exactly as the ledger does. |
| AttendanceScreen.Visible | frontend/src/component/Employee/Attendance/Attendance.jsx:92-99 | Keeps, in order, exactly the people whose lowercased name contains the lowercased term, or whose empId or username contains it. |
| AttendanceScreen.EmptySearchShowsEveryone | frontend/src/component/Employee/Attendance/Attendance.jsx:92-99 | An empty search keeps every person with a name, id or username. |
| AttendanceScreen.ByEmployee | frontend/src/component/Employee/Attendance/Attendance.jsx:46-53 | The map has a key exactly for each item's employee_id. |
| AttendanceScreen.ByEmployeeLastWins | frontend/src/component/Employee/Attendance/Attendance.jsx:50-52 | A later record for the same employee_id overwrites an earlier one. |
| AttendanceScreen.AttendanceBoard.LoadDay | frontend/src/component/Employee/Attendance/Attendance.jsx:41-58 | A list answer rebuilds the map by `ByEmployee`. A non-list answer clears it. A failed fetch keeps it. |
| AttendanceScreen.AttendanceBoard.MarkAttendance | frontend/src/component/Employee/Attendance/Attendance.jsx:63-90 | Unauthorized roles get an alert and nothing changes. Otherwise the post carries the row and date. Only a saved post replaces that employee's status, keeping every other entry and field. The submitting marker always ends null. |
| SalesTable.Processed | frontend/src/component/Sales/SalesTable.jsx:68-86 | A permutation of exactly the rows that match the search and product filter, sorted by the chosen order. |
| SalesTable.NewestFirstOrdersDates | frontend/src/component/Sales/SalesTable.jsx:79-80 | dateNewest yields dates that never increase down the list. |
| SalesTable.OldestFirstOrdersDates | frontend/src/component/Sales/SalesTable.jsx:81 | dateOldest yields dates that never decrease down the list. |
| SalesTable.EmptySearchKeepsNamedRows | frontend/src/component/Sales/SalesTable.jsx:69-76 | An empty search with "All" keeps every row that has a customer or bill number. |
| SalesTable.Page | frontend/src/component/Sales/SalesTable.jsx:89-91 | Page p holds rows [(p-1)*5, p*5) of the list: at most 5 rows, taken in order. |
| SalesTable.TotalPages | frontend/src/component/Sales/SalesTable.jsx:92 | ceil(n/5). |
| SalesTable.PagesUpToPrefix | frontend/src/component/Sales/SalesTable.jsx:89-92 | The first k pages together are the list's first min(5k, n) rows. |
| SalesTable.PagesCoverList | frontend/src/component/Sales/SalesTable.jsx:89-92 | Pages 1..totalPages together are exactly the whole list. |
| SalesTable.ShownPageCount | frontend/src/component/Sales/SalesTable.jsx:239 | The displayed page count is at least 1 and equals totalPages for a non-empty list. |
| SalesTable.Recalc | frontend/src/component/Sales/SalesTable.jsx:59-65 | Only the total and due change: total = qty*rate, and due + received = total, with non-numbers counted as 0. |
| SalesTable.RecalcIdempotent | frontend/src/component/Sales/SalesTable.jsx:59-65 | A recalculated row is consistent, and recalculating it again changes nothing. |
| SalesTable.SetField | frontend/src/component/Sales/SalesTable.jsx:124-127 | An edit changes only the named field. |
| SalesTable.SalesTableScreen.constructor | frontend/src/component/Sales/SalesTable.jsx:14-22 | An empty list, "All" products, newest first, page 1, not editing. |
| SalesTable.SalesTableScreen.CurrentRows | frontend/src/component/Sales/SalesTable.jsx:88-91 | The shown rows are at most 5 rows of the list that pass the filter. |
| SalesTable.SalesTableScreen.Load | frontend/src/component/Sales/SalesTable.jsx:40-56 | The list becomes the snapshot. |
| SalesTable.SalesTableScreen.SetSearch | frontend/src/component/Sales/SalesTable.jsx:159 | A new search term resets the page to 1. |
| SalesTable.SalesTableScreen.SetProduct | frontend/src/component/Sales/SalesTable.jsx:146 | A new product filter resets the page to 1. |
| SalesTable.SalesTableScreen.SetSort | frontend/src/component/Sales/SalesTable.jsx:139 | Sets the sort order. |
| SalesTable.SalesTableScreen.PrevPage | frontend/src/component/Sales/SalesTable.jsx:239 | Prev is disabled at page 1 and otherwise goes back one page. |
| SalesTable.SalesTableScreen.NextPage | frontend/src/component/Sales/SalesTable.jsx:241 | Next is disabled at or beyond the last page and otherwise goes forward one. |
| SalesTable.SalesTableScreen.StartEdit | frontend/src/component/Sales/SalesTable.jsx:115-122 | Only Admin or Accountant enter edit mode, with a recalculated copy; others get a denial and nothing else changes. |
| SalesTable.SalesTableScreen.EditChange | frontend/src/component/Sales/SalesTable.jsx:58-64 | `handleEditChange` (lines 124-127) sets the field; this effect then recalculates the total and due when a quantity, rate or received amount changes while editing. |
| SalesTable.SalesTableScreen.CancelEdit | frontend/src/component/Sales/SalesTable.jsx:210 | Leaves edit mode. |
| SalesTable.SalesTableScreen.HandleSave | frontend/src/component/Sales/SalesTable.jsx:105-113 | Other roles change nothing. Otherwise the edited row is sent under its id. A save leaves edit mode and a failure stays in it, and either way a notice is shown. |
| SalesTable.SalesTableScreen.HandleDelete | frontend/src/component/Sales/SalesTable.jsx:95-103 | Other roles get the denial and send nothing. Otherwise the id is sent and the outcome is announced. |
| SalesEntry.Initial | frontend/src/component/Sales/SalesEntry.jsx:13-25 | Dated today, with zero totals and no due date. |
| SalesEntry.Live | frontend/src/component/Sales/SalesEntry.jsx:57-74 | Only the derived fields change. total = qty*rate; due = total - received, with non-numbers counted as 0. The bill due date is exactly 15 days after the entry date, or empty when there is no date. |
| SalesEntry.DueDateAfterEntry | frontend/src/component/Sales/SalesEntry.jsx:61-66 | The due date lies after the entry date. |
| SalesEntry.AfterChange | frontend/src/component/Sales/SalesEntry.jsx:57-74 | The derived fields are recomputed exactly when one of the effect's inputs changed. |
| SalesEntry.ResetCanBlankDueDate | frontend/src/component/Sales/SalesEntry.jsx:81-84 | Resetting a form whose inputs already equal the initial ones does not re-run the live calculation of lines 57-74, so the due date stays blank while the date is today. |
| SalesEntry.SalesEntryScreen.constructor | frontend/src/component/Sales/SalesEntry.jsx:13-25 | The form starts as this initial form after the live calculation of lines 57-74, and the SI starts at 1. |
| SalesEntry.SalesEntryScreen.FetchNextSi | frontend/src/component/Sales/SalesEntry.jsx:43-50 | A successful fetch sets the next SI, and a failed one keeps it. |
| SalesEntry.SalesEntryScreen.HandleChange | frontend/src/component/Sales/SalesEntry.jsx:76-79 | The field is set, then the live calculation runs as the effect does; the totals stay consistent. |
| SalesEntry.SalesEntryScreen.HandleReset | frontend/src/component/Sales/SalesEntry.jsx:81-84 | The form goes back to the initial state, and the notice is shown to Admin or Accountant only. |
| SalesEntry.SalesEntryScreen.HandleSubmit | frontend/src/component/Sales/SalesEntry.jsx:86-113 | Other roles are denied and nothing is sent. Otherwise the form plus si = nextSi is posted. A save resets the form and refetches the SI. A refusal or failure keeps the form. |
| StockAddForm.StockAddScreen.constructor | frontend/src/component/Stocks/StockAddForm.jsx:10-21 | The form starts as the initial form dated today. |
| StockAddForm.StockAddScreen.HandleChange | frontend/src/component/Stocks/StockAddForm.jsx:37-49 | The named field is set. Total and balance are recomputed only for quantity, rate or paidAmount (total = qty*rate, balance = total - paid); other edits keep them. |
| StockAddForm.StockAddScreen.HandleSubmit | frontend/src/component/Stocks/StockAddForm.jsx:52-72 | Other roles are denied and the form is kept. Otherwise the form is posted; a save resets it and a failure keeps it. |
| StockTable.Status | frontend/src/component/Stocks/StockTable.jsx:155-156 | "Out of Stock" exactly when quantity <= 0, "Low" exactly when 0 < quantity < 50 (the threshold of line 122), and "Available" exactly when quantity >= 50. |
| StockTable.Filtered | frontend/src/component/Stocks/StockTable.jsx:89-91 | Keeps, in order, exactly the items whose lowercased name contains the lowercased term. |
| StockTable.SearchIgnoresCase | frontend/src/component/Stocks/StockTable.jsx:89-91 | Searching for the upper-case term gives the same list. |
| StockTable.ReplaceById | frontend/src/component/Stocks/StockTable.jsx:71 | Same length and order; exactly the elements with that id are replaced. |
| StockTable.RemoveById | frontend/src/component/Stocks/StockTable.jsx:83 | Removes exactly the elements with that id and keeps the rest in order. |
| StockTable.RemoveByIdIdempotent | frontend/src/component/Stocks/StockTable.jsx:83 | Deleting the same id twice equals deleting it once. |
| StockTable.Payload | frontend/src/component/Stocks/StockTable.jsx:62-66 | The saved item is the edit copy with its quantity as a number and today's date; nothing else differs. |
| StockTable.StockTableScreen.Load | frontend/src/component/Stocks/StockTable.jsx:27-41 | A list answer replaces the stocks, a non-list answer empties them, and a failure keeps them. |
| StockTable.StockTableScreen.StartEdit | frontend/src/component/Stocks/StockTable.jsx:46-50 | Only Admin or Accountant start editing a copy; others get the denial. |
| StockTable.StockTableScreen.EditChange | frontend/src/component/Stocks/StockTable.jsx:53-56 | Sets the named field of the edit copy. |
| StockTable.StockTableScreen.HandleSave | frontend/src/component/Stocks/StockTable.jsx:59-75 | Other roles change nothing. Otherwise the payload is sent under editId, and success leaves edit mode and replaces that id's rows by the edit copy. Failure keeps everything and shows the error. |
| StockTable.StockTableScreen.HandleDelete | frontend/src/component/Stocks/StockTable.jsx:78-87 | Other roles are denied. Otherwise the id is sent, and success removes exactly that id's rows. |
| StockManagement.Status | frontend/src/component/Stocks/StockManagement.jsx:167-168 | "Out of Stock" exactly when quantity <= 0, "Low Stock" exactly when 0 < quantity < 50 (the threshold of line 146), and "Available" exactly when quantity >= 50. |
| StockManagement.StatusAgreesWithTable | frontend/src/component/Stocks/StockManagement.jsx:167-168 | The two stock pages classify alike and differ only in the wording "Low Stock" versus "Low". |
| StockManagement.Loaded | frontend/src/component/Stocks/StockManagement.jsx:39-47 | The list is the snapshot's entries, each with its key as id, in reverse key order. |
| StockManagement.PressAsWritten | frontend/src/component/Core_Component/Alert/Alert.jsx:15-22 | Both dialog buttons only close the dialog. |
| StockManagement.ConfirmedDeleteNeverRuns | frontend/src/component/Stocks/StockManagement.jsx:206-211 | The delete confirmation carries its callback, yet neither button runs it. |
| StockManagement.PressIntended | frontend/src/component/Stocks/StockManagement.jsx:59-74 | OK on a confirmation that carries a callback runs the callback for that id; every other press closes the dialog. |
| StockManagement.Notice | frontend/src/component/Stocks/StockManagement.jsx:27-29 | A plain notice is shown and carries no callback. |
| StockManagement.StockScreen.Load | frontend/src/component/Stocks/StockManagement.jsx:35-51 | The list becomes `Loaded` of the snapshot. |
| StockManagement.StockScreen.Visible | frontend/src/component/Stocks/StockManagement.jsx:107-109 | Exactly the items whose lowercased name contains the lowercased term. |
| StockManagement.StockScreen.HandleDelete | frontend/src/component/Stocks/StockManagement.jsx:54-66 | Other roles get the denial. Otherwise a confirmation dialog opens, carrying the delete of that id. |
| StockManagement.StockScreen.PressAlertAsWritten | frontend/src/component/Stocks/StockManagement.jsx:206-211 | With the dialog as wired, a press only hides it and no delete is ever sent. |
| StockManagement.StockScreen.PressAlert | frontend/src/component/Stocks/StockManagement.jsx:59-74 | With the callback honoured, OK on the confirmation sends the delete and shows its outcome, and any other press hides the dialog. |
| StockManagement.StockScreen.StartEdit | frontend/src/component/Stocks/StockManagement.jsx:76-83 | Only Admin or Accountant start editing a copy of the item; others get the denial. |
| StockManagement.StockScreen.EditChange | frontend/src/component/Stocks/StockManagement.jsx:85-88 | Sets exactly the named field of the edit copy. |
| StockManagement.StockScreen.HandleSave | frontend/src/component/Stocks/StockManagement.jsx:90-105 | Other roles change nothing. Otherwise the edit copy is sent with a numeric quantity and today's date under editId. Success leaves edit mode; either way a notice is shown. |
| Reports.ItemDate | frontend/src/component/Reports_Printing/Reports_Printing.jsx:72 | The compared date is the part before the first 'T' of created_at, else date, else "". |
| Dates.IsoDateOrder | frontend/src/component/Reports_Printing/Reports_Printing.jsx:72 | For four-digit years, comparing `YYYY-MM-DD` strings as the date-range filter does is comparing the dates, and equal strings are equal dates. |
| Reports.StepwiseIsOneFilter | frontend/src/component/Reports_Printing/Reports_Printing.jsx:67-89 | The three successive filters equal one filter by the conjunction of the active tests. |
| Reports.FilterResult | frontend/src/component/Reports_Printing/Reports_Printing.jsx:67-89 | The result keeps raw order and holds exactly the rows that pass every active filter. |
| Reports.StockIgnoresParty | frontend/src/component/Reports_Printing/Reports_Printing.jsx:83 | For stock, the person filter has no effect. |
| Reports.GrandTotalNonNegative | frontend/src/component/Reports_Printing/Reports_Printing.jsx:93-95 | With non-negative row amounts, the grand total is non-negative. |
| Reports.PersonListMembers | frontend/src/component/Reports_Printing/Reports_Printing.jsx:37-44 | No duplicates, and it holds exactly the truthy customer (sales) or supplier (purchases) names of the data; it is empty for stock. |
| Reports.PersonListInOrder | frontend/src/component/Reports_Printing/Reports_Printing.jsx:37-44 | The list keeps the order of the data: it is a subsequence of the party column, as the Set keeps first occurrences. |
| Reports.ReportScreen.FetchData | frontend/src/component/Reports_Printing/Reports_Printing.jsx:25-57 | Success loads the rows, clears the filtered rows and rebuilds the person list. Failure empties the rows and shows the error. Either way the product and person filters reset to "All". |
| Reports.ReportScreen.HandleFilter | frontend/src/component/Reports_Printing/Reports_Printing.jsx:60-91 | With no filter chosen (outside stock) it warns and changes nothing. Otherwise the filtered rows are the stepwise filter of the raw rows, and the count is announced. |
| ProfitLoss.Settle | frontend/src/component/ProfitLoss/ProfitLoss.jsx:29-30 | totalOut = purchases + expenses, and net + totalOut = sales. The total row (lines 72 and 75) is labelled PROFIT with style pos exactly when net >= 0, and LOSS with style neg exactly when net < 0. |
| ProfitLoss.FailedFetchReadsAsProfit | frontend/src/component/ProfitLoss/ProfitLoss.jsx:7-19 | A failed fetch leaves zero totals, which read as a PROFIT of 0. |
| ProfitLoss.SaleRaisesNet | frontend/src/component/ProfitLoss/ProfitLoss.jsx:29-30 | A new sale raises the net by that sale's amount. |
| ProfitLoss.ProfitLossScreen.Fetch | frontend/src/component/ProfitLoss/ProfitLoss.jsx:11-23 | A successful fetch replaces the totals, and a failed one keeps them. |
| ExpenseManager.GrandTotalAppend | frontend/src/component/Employee/ExpenseManager/ExpenseManager.jsx:40 | One more expense adds exactly its amount to the grand total. |
| ExpenseManager.GrandTotalConcat | frontend/src/component/Employee/ExpenseManager/ExpenseManager.jsx:40 | The grand total of two lists is the sum of their totals. |
| ExpenseManager.Payload | frontend/src/component/Employee/ExpenseManager/ExpenseManager.jsx:69-74 | The post carries the category, amount, detail as description, and the selected date. |
| ExpenseManager.ExpenseScreen.FetchExpenses | frontend/src/component/Employee/ExpenseManager/ExpenseManager.jsx:31-47 | Success replaces the list. Failure keeps it and shows the error. The grand total always equals the list's total. |
| ExpenseManager.ExpenseScreen.HandleSubmit | frontend/src/component/Employee/ExpenseManager/ExpenseManager.jsx:54-86 | Roles other than admin or accountant (any case) are refused, and an empty amount is refused; either refusal changes nothing. Otherwise the payload is posted, and a save resets the form and reloads the list. |
| ExpenseManager.ExpenseScreen.AfterSave | frontend/src/component/Employee/ExpenseManager/ExpenseManager.jsx:76-80 | A save resets the form and reloads the list, whose grand total matches it. |
| MasterPanel.Filtered | frontend/src/component/MasterPanel/MasterPanel.jsx:101-104 | Keeps, in order, exactly the users whose lowercased name contains the lowercased search, or whose empId contains the raw search. |
| MasterPanel.ShownLogs | frontend/src/component/MasterPanel/MasterPanel.jsx:184 | The first 15 log rows, all of them when there are fewer. |
| MasterPanel.PasswordAccepted | frontend/src/component/MasterPanel/MasterPanel.jsx:51 | A new password is accepted exactly when one was entered and it has at least 4 characters. |
| MasterPanel.ToggleRequest | frontend/src/component/MasterPanel/MasterPanel.jsx:171 | The block button sends isBlocked = !isBlocked for that employee and admin. |
| MasterPanel.RoleRequest | frontend/src/component/MasterPanel/MasterPanel.jsx:156 | The role selector sends the chosen role for that employee and admin. |
| MasterPanel.ToggleFlips | frontend/src/component/MasterPanel/MasterPanel.jsx:171-172 | The button blocks an unblocked user and restores a blocked one. |
| MasterPanel.Panel.FetchData | frontend/src/component/MasterPanel/MasterPanel.jsx:25-41 | Success loads users and logs. Failure keeps them and shows the error. |
| MasterPanel.Panel.HandlePasswordReset | frontend/src/component/MasterPanel/MasterPanel.jsx:49-70 | A short or cancelled password is refused locally and nothing is sent. Otherwise the reset is sent. Success reloads the panel. A refusal shows the server message or "Failed!". |
| MasterPanel.Panel.HandleSystemUpdate | frontend/src/component/MasterPanel/MasterPanel.jsx:76-95 | Sends the request as given. Success reloads the panel, and failure keeps it and shows "Update Failed". |
| SalesSlice.FirstIndex | frontend/src/redux/slices/salesSlice.js:23-25 | `findIndex`: the first position holding that id, `None` exactly when there is none. |
| SalesSlice.UpdateIdempotent | frontend/src/redux/slices/salesSlice.js:22-29 | Applying the same update twice equals applying it once. |
| SalesSlice.FirstIndexUnique | frontend/src/redux/slices/salesSlice.js:23-25 | A position with the id and no earlier one is the index found. |
| SalesSlice.FirstIndexAppend | frontend/src/redux/slices/salesSlice.js:23-25 | Appending a row with another id does not make an absent id findable. |
| SalesSlice.UpdateAfterDelete | frontend/src/redux/slices/salesSlice.js:22-36 | Updating an id that was deleted changes nothing. |
| SalesSlice.SalesSlice.constructor | frontend/src/redux/slices/salesSlice.js:6-10 | An empty list, not loading, no error. |
| SalesSlice.SalesSlice.AddSale | frontend/src/redux/slices/salesSlice.js:14-19 | Appends the payload with the clock reading as its id. |
| SalesSlice.SalesSlice.UpdateSale | frontend/src/redux/slices/salesSlice.js:22-29 | The findIndex loop replaces the first element with the payload's id, keeps the length, and changes nothing if the id is absent. |
| SalesSlice.SalesSlice.DeleteSale | frontend/src/redux/slices/salesSlice.js:32-36 | Removes exactly the elements with that id and keeps the rest in order. |
| SalesSlice.SalesSlice.ClearSales | frontend/src/redux/slices/salesSlice.js:39-41 | Empties the list. |
| ListSlices.FetchSlice.constructor | frontend/src/redux/slices/stockSlice.js:24-28 | An empty list, not loading, no error. |
| ListSlices.FetchSlice.Clear | frontend/src/redux/slices/stockSlice.js:30-32 | Empties the list and nothing else. |
| ListSlices.FetchSlice.FetchPending | frontend/src/redux/slices/stockSlice.js:36-38 | Sets loading and nothing else. |
| ListSlices.FetchSlice.FetchFulfilled | frontend/src/redux/slices/stockSlice.js:39-42 | Stops loading and replaces the list. |
| ListSlices.FetchSlice.FetchRejected | frontend/src/redux/slices/stockSlice.js:43-46 | Stops loading and records the error message, keeping the list. |
| ListSlices.FetchSlice.AddFulfilled | frontend/src/redux/slices/stockSlice.js:47-49 | Appends the added row. |
| AuthSlice.Auth.constructor | frontend/src/redux/slices/authSlice.js:3-7 | Logged in exactly when the stored flag is "true"; no user and no token. |
| AuthSlice.Auth.LoginSuccess | frontend/src/redux/slices/authSlice.js:13-18 | Logged in with the payload's user and token, and the flag is stored. |
| AuthSlice.Auth.Logout | frontend/src/redux/slices/authSlice.js:19-24 | Logged out, user and token cleared, and the flag removed; the invariant links the login state to the stored flag. |
| UiSlice.Ui.constructor | frontend/src/redux/slices/uiSlice.js:5-8 | Sidebar closed and not loading. |
| UiSlice.Ui.OpenSidebar | frontend/src/redux/slices/uiSlice.js:10-12 | Opens the sidebar and nothing else. |
| UiSlice.Ui.CloseSidebar | frontend/src/redux/slices/uiSlice.js:13-15 | Closes the sidebar and nothing else. |
| UiSlice.Ui.SetLoading | frontend/src/redux/slices/uiSlice.js:16-18 | Sets loading to the payload and nothing else. |

## Left out

- I/O and timing are parameters:
  - HTTP, MySQL and Firebase calls become response or outcome parameters;
  - `Math.random`, `Date.now` and `new Date()` become the `draw`, `d1`/`d2`, `now` and `today` parameters;
  - the 30 s polling interval and the 800 ms and 1000 ms loader delays are not modelled as time: each poll or fetch is one method call.
  - The idle timer is modelled by `Elapse` and `Activity` steps.
- Timezones and `toISOString`: dates are calendar dates. The shift between local and UTC days, and `toLocaleDateString`, are not modelled.
- Invalid dates and NaN are not modelled:
  - `Number()` of arbitrary text is either absent, a number or a numeric string;
  - non-numeric text (NaN) is not modelled;
  - a missing stock quantity compared with `<` is not modelled, nor an `undefined` amount that turns a `reduce` total into NaN;
  - sale rows are assumed to carry a date.
- Fractions: money is whole rupees. `Math.round` of `P*r + H*r/2` is modelled exactly for integer rates.
- SalesTable.Processed: `localeCompare` with numeric collation for bill numbers is a `billRank` parameter, not a model of the collation.
- SalesTable.Processed: under the bill orders a kept row without `billNo` (kept through its customer name) makes `a.billNo.localeCompare` throw a TypeError when the sort passes it as `a`, and compares as the text "undefined" when it comes as `b`; which happens depends on the engine's sort, so the model does not capture the thrown error and ranks a missing bill number as `billRank("")`.
- ASCII only: `toLowerCase`, `toUpperCase` and string length are modelled for ASCII, and lengths count UTF-16 code units as characters.
- MySQL collation: string equality in `WHERE` is modelled as exact equality, `ORDER BY date DESC` ties are resolved by a stable sort, and `ORDER BY created_at DESC` on the activity log is read as newest insertion first, although rows logged in the same second have no fixed order in MySQL.
- Server.SetColumn:
  - models the columns `role`, `password`, `name`, `username`, `designation`, `photo`, `currentSessionId`, `isBlocked` and `salary_per_day`;
  - leaves the other columns named by the INSERT statements (email, phone, address, bank details and so on) as no change to the modelled fields;
  - treats an unknown or non-writable column name (including `id`) as the SQL error;
  - refuses a text value for the numeric columns `isBlocked` and `salary_per_day`, although MySQL would convert a numeric text such as "1" to a number.
- Endpoints the backend does not define are modelled from the client's side only, as an outcome parameter: `/api/stocks`, `/api/expenses`, `/api/admin/reset-password`, `/api/attendance/:date`, `/api/users/status`, `/api/salary/payments`.
- Field-name mismatches between client and server are not modelled end to end:
  - the login form posts `empId` where the server reads `username`;
  - the master panel posts `empId` where the server reads `targetId`;
  - the status poll reads `user.empId`.

  Each side is modelled as written.
- Navbar.PollAlerts: the `forceLogout` alert is modelled as the returned alert list; `alert()` itself is a browser call.
- Presentation is not modelled: JSX rendering, CSS classes other than the calendar tile class, `window.print`, the `Loader`, `CustomSnackbar` and `DashboardSidebar` components, and form wiring.
- Pages outside the modelled core are not modelled: the profile, employee table and form, purchase pages and registration pages.
- Redux thunks: the employee, purchase and stock slices are one generic `FetchSlice`, because their reducers are identical. The thunks' HTTP calls are the payload parameters.

## Findings

| source | as written | input that shows it | evidently intended | confidence | as-written member | corrected member |
|---|---|---|---|---|---|---|
| frontend/src/component/Stocks/StockManagement.jsx:206-211 | The confirmation dialog is rendered without its `onConfirm` callback, and both of the dialog's buttons call only `onClose` (Alert.jsx lines 15-22). So the delete that `handleDelete` arms at lines 59-65 can never run. | An Admin presses delete on any stock item, then presses OK. | OK on the delete confirmation runs `executeDelete(id)`, and Cancel only closes the dialog. | not executed | StockManagement.ConfirmedDeleteNeverRuns | StockManagement.StockScreen.PressAlert |
