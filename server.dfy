/** The Express back end: the MySQL tables it reads and writes (employees,
    attendance, salary_payments, sales, purchases, expenses, products,
    activity_logs) and one method per HTTP handler, returning the response the
    handler sends. Every table is a sequence in primary-key order. */
module Server {
  import opened Common
  import opened Text
  import opened Dates

  // ---------------------------------------------------------------------------
  // Rows

  datatype Employee = Employee(
    id: nat,
    username: string,
    password: string,
    name: string,
    designation: Option<string>,
    role: string,
    photo: Option<string>,
    salaryPerDay: Numeric,
    isBlocked: int,
    currentSessionId: Option<string>)

  /** A row of `attendance`, whose unique key is (employee_id, date). */
  datatype AttendanceRow = AttendanceRow(employeeId: int, date: Date, status: string)

  datatype Payment = Payment(employeeId: int, amount: Numeric, date: Date, kind: Option<string>)

  datatype Sale = Sale(
    date: Date, customerName: Option<string>, productName: Option<string>, billNo: Option<string>,
    quantity: Numeric, rate: Numeric, totalAmount: Numeric, amountReceived: Numeric,
    paymentDue: Numeric, remarks: Option<string>, billDueDate: Option<Date>, si: Option<int>)

  datatype Purchase = Purchase(date: Date, supplierName: Option<string>, productName: Option<string>, totalAmount: Numeric)

  datatype Expense = Expense(category: string, amount: Numeric, description: Option<string>, expenseDate: Date)

  datatype Product = Product(name: string, quantity: Numeric)

  datatype LogEntry = LogEntry(adminName: Option<string>, actionDetail: string)

  /** What `GET /api/employees` lists: no password, salary or session token. */
  datatype EmployeeSummary = EmployeeSummary(id: nat, name: string, username: string, role: string, photo: Option<string>, isBlocked: int)

  // ---------------------------------------------------------------------------
  // Responses

  datatype LoginResult = LoggedIn(user: Employee) | Blocked | InvalidCredentials

  datatype SessionInfo = SessionInfo(activeSessionId: Option<string>, isBlocked: bool)

  datatype Report = SalesRows(sales: seq<Sale>) | PurchaseRows(purchases: seq<Purchase>) | StockRows(products: seq<Product>) | InvalidCategory

  datatype Totals = Totals(sales: int, purchases: int, expenses: int)

  /** The value of `update-system`, as the JSON body carries it. */
  datatype Value = Text(s: string) | Flag(b: bool) | Number(n: int)

  datatype UpdateResult = Updated | UnknownColumn

  // ---------------------------------------------------------------------------
  // Login and sessions

  predicate Credentials(e: Employee, username: string, password: string) {
    e.username == username && e.password == password
  }

  /** The position of `rows[0]` of `SELECT * FROM employees WHERE username = ? AND password = ?`. */
  function FirstMatch(emps: seq<Employee>, username: string, password: string): (r: Option<nat>)
    ensures r.None? <==> forall i :: 0 <= i < |emps| ==> !Credentials(emps[i], username, password)
    ensures r.Some? ==> r.value < |emps| && Credentials(emps[r.value], username, password)
    ensures r.Some? ==> forall j :: 0 <= j < r.value ==> !Credentials(emps[j], username, password)
  {
    if emps == [] then None
    else if Credentials(emps[0], username, password) then Some(0)
    else match FirstMatch(emps[1..], username, password)
      case None => None
      case Some(k) => Some(k + 1)
  }

  datatype LoginStep = LoginStep(result: LoginResult, employees: seq<Employee>)

  /** `POST /api/login`: the credential match comes first, then the block check, and only
      then is the new session token written over the old one. */
  function LoginTransition(emps: seq<Employee>, username: string, password: string, token: string): (r: LoginStep)
    ensures r.result.InvalidCredentials? <==> forall i :: 0 <= i < |emps| ==> !Credentials(emps[i], username, password)
    ensures !r.result.LoggedIn? ==> r.employees == emps
    ensures r.result.Blocked? ==> exists i :: 0 <= i < |emps| && Credentials(emps[i], username, password) && emps[i].isBlocked != 0
    ensures r.result.LoggedIn? ==>
      (exists i :: 0 <= i < |emps| && Credentials(emps[i], username, password) && emps[i].isBlocked == 0
        && r.employees == emps[i := emps[i].(currentSessionId := Some(token))]
        && r.result.user == r.employees[i])
  {
    match FirstMatch(emps, username, password)
    case None => LoginStep(InvalidCredentials, emps)
    case Some(i) =>
      if emps[i].isBlocked != 0 then LoginStep(Blocked, emps)
      else
        var e := emps[i].(currentSessionId := Some(token));
        LoginStep(LoggedIn(e), emps[i := e])
  }

  /** The first row with the given id. */
  function FindById(emps: seq<Employee>, id: int): (r: Option<nat>)
    ensures r.None? <==> forall i :: 0 <= i < |emps| ==> emps[i].id != id
    ensures r.Some? ==> r.value < |emps| && emps[r.value].id == id
    ensures r.Some? ==> forall j :: 0 <= j < r.value ==> emps[j].id != id
  {
    if emps == [] then None
    else if emps[0].id == id then Some(0)
    else match FindById(emps[1..], id)
      case None => None
      case Some(k) => Some(k + 1)
  }

  /** `GET /api/users/session-check/:id`; `None` is the 404 response. */
  function SessionLookup(emps: seq<Employee>, id: int): (r: Option<SessionInfo>)
    ensures r.None? <==> forall i :: 0 <= i < |emps| ==> emps[i].id != id
    ensures r.Some? ==>
      (exists i :: 0 <= i < |emps| && emps[i].id == id
        && r.value.activeSessionId == emps[i].currentSessionId && (r.value.isBlocked <==> emps[i].isBlocked == 1))
  {
    match FindById(emps, id)
    case None => None
    case Some(i) => Some(SessionInfo(emps[i].currentSessionId, emps[i].isBlocked == 1))
  }

  predicate IdsIncreasing(emps: seq<Employee>) {
    forall i, j :: 0 <= i < j < |emps| ==> emps[i].id < emps[j].id
  }

  predicate IdsBelow(emps: seq<Employee>, bound: int) {
    forall i :: 0 <= i < |emps| ==> emps[i].id < bound
  }

  /** A new row with the next auto-increment id keeps the ids increasing. */
  lemma AppendKeepsIds(emps: seq<Employee>, e: Employee, bound: nat)
    requires IdsIncreasing(emps) && IdsBelow(emps, bound) && e.id == bound
    ensures IdsIncreasing(emps + [e]) && IdsBelow(emps + [e], bound + 1)
  {
  }

  predicate UniqueIds(emps: seq<Employee>) {
    forall i, j :: 0 <= i < j < |emps| ==> emps[i].id != emps[j].id
  }

  /** After a successful login, a session check for that employee reports the new token
      and therefore no longer reports any other token handed out earlier. */
  lemma LoginReplacesSession(emps: seq<Employee>, username: string, password: string, token: string, earlier: string)
    requires UniqueIds(emps)
    requires LoginTransition(emps, username, password, token).result.LoggedIn?
    requires earlier != token
    ensures var step := LoginTransition(emps, username, password, token);
      var info := SessionLookup(step.employees, step.result.user.id);
      info.Some? && info.value.activeSessionId == Some(token) && info.value.activeSessionId != Some(earlier)
  {
    var step := LoginTransition(emps, username, password, token);
    var i :| 0 <= i < |emps| && Credentials(emps[i], username, password) && emps[i].isBlocked == 0
        && step.employees == emps[i := emps[i].(currentSessionId := Some(token))]
        && step.result.user == step.employees[i];
    var id := step.result.user.id;
    forall j | 0 <= j < |step.employees| && j != i ensures step.employees[j].id != id {
      if j < i { assert emps[j].id != emps[i].id; } else { assert emps[i].id != emps[j].id; }
    }
  }

  /** A blocked employee with the right password is refused and their stored token kept. */
  lemma BlockedLoginKeepsToken(emps: seq<Employee>, username: string, password: string, token: string, i: nat)
    requires i < |emps| && Credentials(emps[i], username, password) && emps[i].isBlocked != 0
    requires forall j :: 0 <= j < i ==> !Credentials(emps[j], username, password)
    ensures LoginTransition(emps, username, password, token).result == Blocked
    ensures LoginTransition(emps, username, password, token).employees[i].currentSessionId == emps[i].currentSessionId
  {
    assert FirstMatch(emps, username, password) == Some(i);
  }

  // ---------------------------------------------------------------------------
  // Registration

  /** `designation === "Admin" || designation === "Manager" ? designation : "Worker"` */
  function ClampRole(designation: Option<string>): (r: string)
    ensures r == "Admin" || r == "Manager" || r == "Worker"
    ensures r != "Worker" <==> designation == Some("Admin") || designation == Some("Manager")
    ensures r != "Worker" ==> designation == Some(r)
  {
    if designation == Some("Admin") || designation == Some("Manager") then designation.value else "Worker"
  }

  /** `Math.floor(10000000 + Math.random() * 90000000).toString()`, with `draw` the integer
      part of `Math.random() * 90000000`. */
  function GeneratedId(draw: nat): (r: string)
    requires draw < 90000000
    ensures |r| == 8
    ensures forall k :: 0 <= k < |r| ==> IsDigit(r[k])
    ensures ParseInt(r) == Some(10000000 + draw)
  {
    assert Pow10(7) == 10000000 && Pow10(8) == 100000000;
    DecimalLength(10000000 + draw, 8);
    ParseIntString(10000000 + draw);
    DecimalString(10000000 + draw)
  }

  // ---------------------------------------------------------------------------
  // Attendance

  predicate UniqueKeys(rows: seq<AttendanceRow>) {
    forall i, j :: 0 <= i < j < |rows| ==> (rows[i].employeeId, rows[i].date) != (rows[j].employeeId, rows[j].date)
  }

  /** `INSERT ... ON DUPLICATE KEY UPDATE status = VALUES(status)` */
  function Upsert(rows: seq<AttendanceRow>, employeeId: int, date: Date, status: string): (r: seq<AttendanceRow>)
    ensures |r| == |rows| || |r| == |rows| + 1
    ensures AttendanceRow(employeeId, date, status) in r
    ensures forall x :: x in r ==> x in rows || x == AttendanceRow(employeeId, date, status)
    ensures forall x :: x in rows && (x.employeeId, x.date) != (employeeId, date) ==> x in r
  {
    if rows == [] then [AttendanceRow(employeeId, date, status)]
    else if rows[0].employeeId == employeeId && rows[0].date == date then
      [rows[0].(status := status)] + rows[1..]
    else
      var rest := Upsert(rows[1..], employeeId, date, status);
      assert forall x :: x in rows ==> x == rows[0] || x in rows[1..];
      [rows[0]] + rest
  }

  /** A row is added exactly when no row holds the key yet; otherwise the count stays. */
  lemma {:induction false} UpsertGrowsIffNewKey(rows: seq<AttendanceRow>, employeeId: int, date: Date, status: string)
    ensures (exists i :: 0 <= i < |rows| && rows[i].employeeId == employeeId && rows[i].date == date)
      <==> |Upsert(rows, employeeId, date, status)| == |rows|
  {
    if rows != [] && !(rows[0].employeeId == employeeId && rows[0].date == date) {
      var tail := rows[1..];
      UpsertGrowsIffNewKey(tail, employeeId, date, status);
      if exists i :: 0 <= i < |rows| && rows[i].employeeId == employeeId && rows[i].date == date {
        var i :| 0 <= i < |rows| && rows[i].employeeId == employeeId && rows[i].date == date;
        assert tail[i - 1] == rows[i];
      }
      if exists i :: 0 <= i < |tail| && tail[i].employeeId == employeeId && tail[i].date == date {
        var i :| 0 <= i < |tail| && tail[i].employeeId == employeeId && tail[i].date == date;
        assert rows[i + 1] == tail[i];
      }
    }
  }

  lemma TailKeysUnique(rows: seq<AttendanceRow>)
    requires rows != [] && UniqueKeys(rows)
    ensures UniqueKeys(rows[1..])
    ensures forall x :: x in rows[1..] ==> (x.employeeId, x.date) != (rows[0].employeeId, rows[0].date)
  {
    var tail := rows[1..];
    forall i, j | 0 <= i < j < |tail| ensures (tail[i].employeeId, tail[i].date) != (tail[j].employeeId, tail[j].date) {
      assert tail[i] == rows[i + 1] && tail[j] == rows[j + 1];
    }
    forall x | x in tail ensures (x.employeeId, x.date) != (rows[0].employeeId, rows[0].date) {
      var k :| 0 <= k < |tail| && tail[k] == x;
      assert rows[k + 1] == x;
    }
  }

  lemma ConsKeysUnique(h: AttendanceRow, rest: seq<AttendanceRow>)
    requires UniqueKeys(rest)
    requires forall x :: x in rest ==> (x.employeeId, x.date) != (h.employeeId, h.date)
    ensures UniqueKeys([h] + rest)
  {
    var r := [h] + rest;
    forall i, j | 0 <= i < j < |r| ensures (r[i].employeeId, r[i].date) != (r[j].employeeId, r[j].date) {
      if i == 0 {
        assert r[j] == rest[j - 1] && rest[j - 1] in rest;
      } else {
        assert r[i] == rest[i - 1] && r[j] == rest[j - 1];
      }
    }
  }

  /** The upsert keeps (employee_id, date) a key of the table. */
  lemma {:induction false} UpsertKeepsKeysUnique(rows: seq<AttendanceRow>, employeeId: int, date: Date, status: string)
    requires UniqueKeys(rows)
    ensures UniqueKeys(Upsert(rows, employeeId, date, status))
  {
    if rows == [] {
    } else if rows[0].employeeId == employeeId && rows[0].date == date {
      var r := Upsert(rows, employeeId, date, status);
      assert forall k :: 0 <= k < |r| ==> (r[k].employeeId, r[k].date) == (rows[k].employeeId, rows[k].date);
    } else {
      TailKeysUnique(rows);
      UpsertKeepsKeysUnique(rows[1..], employeeId, date, status);
      ConsKeysUnique(rows[0], Upsert(rows[1..], employeeId, date, status));
    }
  }

  /** The status recorded for an employee on a date, if any. */
  function StatusOn(rows: seq<AttendanceRow>, employeeId: int, date: Date): Option<string> {
    if rows == [] then None
    else if rows[0].employeeId == employeeId && rows[0].date == date then Some(rows[0].status)
    else StatusOn(rows[1..], employeeId, date)
  }

  /** After an upsert the key holds the posted status and every other key is as before. */
  lemma {:induction false} UpsertStatus(rows: seq<AttendanceRow>, employeeId: int, date: Date, status: string, e: int, d: Date)
    ensures StatusOn(Upsert(rows, employeeId, date, status), e, d)
      == if e == employeeId && d == date then Some(status) else StatusOn(rows, e, d)
  {
    if rows != [] && !(rows[0].employeeId == employeeId && rows[0].date == date) {
      UpsertStatus(rows[1..], employeeId, date, status, e, d);
    }
  }

  /** Posting the same mark twice is posting it once, and a later mark replaces an earlier
      one without adding a row. */
  lemma {:induction false} UpsertOverwrites(rows: seq<AttendanceRow>, employeeId: int, date: Date, s1: string, s2: string)
    ensures Upsert(Upsert(rows, employeeId, date, s1), employeeId, date, s2) == Upsert(rows, employeeId, date, s2)
  {
    if rows != [] && !(rows[0].employeeId == employeeId && rows[0].date == date) {
      UpsertOverwrites(rows[1..], employeeId, date, s1, s2);
    }
  }

  lemma UpsertIdempotent(rows: seq<AttendanceRow>, employeeId: int, date: Date, status: string)
    ensures Upsert(Upsert(rows, employeeId, date, status), employeeId, date, status) == Upsert(rows, employeeId, date, status)
  {
    UpsertOverwrites(rows, employeeId, date, status, status);
  }

  datatype DayMark = DayMark(date: Date, status: string)

  function MarksOf(rows: seq<AttendanceRow>, employeeId: int): (r: seq<DayMark>)
    ensures |r| <= |rows|
    ensures forall m :: m in r <==> AttendanceRow(employeeId, m.date, m.status) in rows
  {
    if rows == [] then []
    else
      var rest := MarksOf(rows[1..], employeeId);
      assert forall x :: x in rows <==> x == rows[0] || x in rows[1..];
      if rows[0].employeeId == employeeId then [DayMark(rows[0].date, rows[0].status)] + rest else rest
  }

  function NewestFirstKey(m: DayMark): int {
    -Ordinal(m.date)
  }

  /** `SELECT date, status FROM attendance WHERE employee_id = ? ORDER BY date DESC` */
  function History(rows: seq<AttendanceRow>, employeeId: int): (r: seq<DayMark>)
    ensures multiset(r) == multiset(MarksOf(rows, employeeId))
    ensures forall m :: m in r <==> AttendanceRow(employeeId, m.date, m.status) in rows
    ensures forall i, j :: 0 <= i < j < |r| ==> Ordinal(r[j].date) <= Ordinal(r[i].date)
  {
    var marks := MarksOf(rows, employeeId);
    var r := SortByKey(marks, NewestFirstKey);
    forall m ensures m in r <==> m in marks {
      assert m in r <==> multiset(r)[m] > 0;
      assert m in marks <==> multiset(marks)[m] > 0;
    }
    forall i, j | 0 <= i < j < |r| ensures Ordinal(r[j].date) <= Ordinal(r[i].date) {
      assert NewestFirstKey(r[i]) <= NewestFirstKey(r[j]);
    }
    r
  }

  /** When every stored date is a calendar date, the history lists newer days first. */
  lemma HistoryNewestFirst(rows: seq<AttendanceRow>, employeeId: int, i: int, j: int)
    requires forall x :: x in rows ==> InColumnRange(x.date)
    requires 0 <= i < j < |History(rows, employeeId)|
    ensures !Before(History(rows, employeeId)[i].date, History(rows, employeeId)[j].date)
  {
    var h := History(rows, employeeId);
    assert h[i] in h && h[j] in h;
    assert AttendanceRow(employeeId, h[i].date, h[i].status) in rows;
    assert AttendanceRow(employeeId, h[j].date, h[j].status) in rows;
    OrdinalOrder(h[i].date, h[j].date);
  }

  // ---------------------------------------------------------------------------
  // Sales, finance and reports

  /** `(MAX(si) || 0) + 1`; rows whose si is NULL are ignored by MAX. */
  function NextSiOf(sales: seq<Sale>): (r: int)
    ensures forall k :: 0 <= k < |sales| && sales[k].si.Some? ==> sales[k].si.value < r
    ensures r == 1 || exists k :: 0 <= k < |sales| && sales[k].si == Some(r - 1)
  {
    match MaxSi(sales)
    case None => 1
    case Some(m) => if m == 0 then 1 else m + 1
  }

  function MaxSi(sales: seq<Sale>): (r: Option<int>)
    ensures r.None? <==> forall k :: 0 <= k < |sales| ==> sales[k].si.None?
    ensures r.Some? ==> exists k :: 0 <= k < |sales| && sales[k].si == r
    ensures r.Some? ==> forall k :: 0 <= k < |sales| && sales[k].si.Some? ==> sales[k].si.value <= r.value
  {
    if sales == [] then None
    else
      var rest := MaxSi(sales[..|sales| - 1]);
      var last := sales[|sales| - 1].si;
      if last.None? then rest
      else if rest.None? || rest.value < last.value then last
      else rest
  }

  function SaleTotal(s: Sale): int { NumberOr0(s.totalAmount) }
  function PurchaseTotal(p: Purchase): int { NumberOr0(p.totalAmount) }
  function ExpenseAmount(e: Expense): int { NumberOr0(e.amount) }

  /** `GET /api/finance/profit-loss`: `SUM` skips NULLs and an empty sum reads as 0. */
  function ProfitLossTotals(sales: seq<Sale>, purchases: seq<Purchase>, expenses: seq<Expense>): (r: Totals)
    ensures sales == [] ==> r.sales == 0
    ensures purchases == [] ==> r.purchases == 0
    ensures expenses == [] ==> r.expenses == 0
  {
    Totals(SumOf(sales, SaleTotal), SumOf(purchases, PurchaseTotal), SumOf(expenses, ExpenseAmount))
  }

  predicate SaleHasAmount(s: Sale) { !s.totalAmount.Absent? }
  predicate PurchaseHasAmount(p: Purchase) { !p.totalAmount.Absent? }
  predicate ExpenseHasAmount(e: Expense) { !e.amount.Absent? }

  /** A sum over rows whose amount is NULL-free ignores the rows without one. */
  lemma AbsentAddsNothing<T(!new)>(rows: seq<T>, f: T -> int, has: T -> bool)
    requires forall x :: !has(x) ==> f(x) == 0
    ensures SumOf(rows, f) == SumOf(Filter(rows, has), f)
  {
    SumFilterSplit(rows, f, has);
    SumZero(Filter(rows, x => !has(x)), f);
  }

  /** Rows with a NULL amount add nothing: each total is the total over the rows that
      carry an amount, as `SUM` skipping NULLs computes it. */
  lemma ProfitLossSkipsMissing(sales: seq<Sale>, purchases: seq<Purchase>, expenses: seq<Expense>)
    ensures var r := ProfitLossTotals(sales, purchases, expenses);
      && r.sales == ProfitLossTotals(Filter(sales, SaleHasAmount), [], []).sales
      && r.purchases == ProfitLossTotals([], Filter(purchases, PurchaseHasAmount), []).purchases
      && r.expenses == ProfitLossTotals([], [], Filter(expenses, ExpenseHasAmount)).expenses
  {
    AbsentAddsNothing(sales, SaleTotal, SaleHasAmount);
    AbsentAddsNothing(purchases, PurchaseTotal, PurchaseHasAmount);
    AbsentAddsNothing(expenses, ExpenseAmount, ExpenseHasAmount);
  }

  /** The totals of two batches of rows together are the sums of their totals. */
  lemma ProfitLossAdditive(s1: seq<Sale>, s2: seq<Sale>, p1: seq<Purchase>, p2: seq<Purchase>,
                           e1: seq<Expense>, e2: seq<Expense>)
    ensures var a, b := ProfitLossTotals(s1, p1, e1), ProfitLossTotals(s2, p2, e2);
      ProfitLossTotals(s1 + s2, p1 + p2, e1 + e2) == Totals(a.sales + b.sales, a.purchases + b.purchases, a.expenses + b.expenses)
  {
    SumConcat(s1, s2, SaleTotal);
    SumConcat(p1, p2, PurchaseTotal);
    SumConcat(e1, e2, ExpenseAmount);
  }

  /** Recording a sale raises the sales total by exactly that sale's amount. */
  lemma InsertSaleRaisesTotal(sales: seq<Sale>, purchases: seq<Purchase>, expenses: seq<Expense>, s: Sale)
    ensures ProfitLossTotals(sales + [s], purchases, expenses).sales == ProfitLossTotals(sales, purchases, expenses).sales + NumberOr0(s.totalAmount)
    ensures ProfitLossTotals(sales + [s], purchases, expenses).purchases == ProfitLossTotals(sales, purchases, expenses).purchases
  {
    SumAppend(sales, s, SaleTotal);
  }

  function SaleKey(s: Sale): int { -Ordinal(s.date) }
  function PurchaseKey(p: Purchase): int { -Ordinal(p.date) }

  /** `GET /api/reports/:category`: three fixed categories, anything else is a 400. */
  function ReportFor(category: string, sales: seq<Sale>, purchases: seq<Purchase>, products: seq<Product>): (r: Report)
    ensures r.InvalidCategory? <==> category != "sales" && category != "purchases" && category != "stock"
    ensures r.SalesRows? <==> category == "sales"
    ensures r.SalesRows? ==>
      (multiset(r.sales) == multiset(sales)
        && forall i, j :: 0 <= i < j < |r.sales| ==> Ordinal(r.sales[j].date) <= Ordinal(r.sales[i].date))
    ensures r.PurchaseRows? <==> category == "purchases"
    ensures r.PurchaseRows? ==>
      (multiset(r.purchases) == multiset(purchases)
        && forall i, j :: 0 <= i < j < |r.purchases| ==> Ordinal(r.purchases[j].date) <= Ordinal(r.purchases[i].date))
    ensures r.StockRows? <==> category == "stock"
    ensures r.StockRows? ==> r.products == products
  {
    if category == "sales" then
      var s := SortByKey(sales, SaleKey);
      assert forall i, j :: 0 <= i < j < |s| ==> SaleKey(s[i]) <= SaleKey(s[j]);
      SalesRows(s)
    else if category == "purchases" then
      var p := SortByKey(purchases, PurchaseKey);
      assert forall i, j :: 0 <= i < j < |p| ==> PurchaseKey(p[i]) <= PurchaseKey(p[j]);
      PurchaseRows(p)
    else if category == "stock" then StockRows(products)
    else InvalidCategory
  }

  function Take<T>(s: seq<T>, n: nat): (r: seq<T>)
    ensures |r| <= n && |r| <= |s| && r == s[..|r|]
    ensures |r| == if |s| < n then |s| else n
  {
    if |s| <= n then s else s[..n]
  }

  /** `SELECT * FROM activity_logs ORDER BY created_at DESC LIMIT 50`, newest first. */
  function RecentLogs(logs: seq<LogEntry>): (r: seq<LogEntry>)
    ensures |r| <= 50
    ensures |r| == if |logs| < 50 then |logs| else 50
    ensures forall i :: 0 <= i < |r| ==> r[i] == logs[|logs| - 1 - i]
  {
    Take(Reverse(logs), 50)
  }

  // ---------------------------------------------------------------------------
  // update-system

  /** Columns of `employees` named by the INSERT statements whose contents this model
      does not follow; setting them succeeds and changes no modelled field. */
  predicate OtherColumn(col: string) {
    col == "email" || col == "phone" || col == "aadhar" || col == "father_name"
    || col == "emergency_phone" || col == "address" || col == "joining_date" || col == "bank_name"
    || col == "account_no" || col == "ifsc_code"
  }

  /** A value written into a text column (`true` and `false` are stored as 1 and 0). */
  function AsText(v: Value): string {
    match v
    case Text(s) => s
    case Flag(b) => if b then "1" else "0"
    case Number(n) => IntString(n)
  }

  /** A value written into an integer column; a string is refused. */
  function AsNumber(v: Value): Option<int> {
    match v
    case Text(_) => None
    case Flag(b) => Some(if b then 1 else 0)
    case Number(n) => Some(n)
  }

  /** `SET ${field} = ?` on one row; `None` is the error MySQL raises for the statement.
      Column names are matched without regard to case, as MySQL does. */
  function SetColumn(e: Employee, field: string, v: Value): (r: Option<Employee>)
    ensures r.Some? ==> r.value.id == e.id
    ensures Lower(field) == "role" ==> r == Some(e.(role := AsText(v)))
    ensures Lower(field) == "password" ==> r == Some(e.(password := AsText(v)))
    ensures Lower(field) == "name" ==> r == Some(e.(name := AsText(v)))
    ensures Lower(field) == "username" ==> r == Some(e.(username := AsText(v)))
    ensures Lower(field) == "designation" ==> r == Some(e.(designation := Some(AsText(v))))
    ensures Lower(field) == "photo" ==> r == Some(e.(photo := Some(AsText(v))))
    ensures Lower(field) == "currentsessionid" ==> r == Some(e.(currentSessionId := Some(AsText(v))))
    ensures Lower(field) == "isblocked" ==> r == if AsNumber(v).Some? then Some(e.(isBlocked := AsNumber(v).value)) else None
    ensures Lower(field) == "salary_per_day" ==> r == if AsNumber(v).Some? then Some(e.(salaryPerDay := Num(AsNumber(v).value))) else None
    ensures OtherColumn(Lower(field)) ==> r == Some(e)
  {
    var col := Lower(field);
    if col == "role" then Some(e.(role := AsText(v)))
    else if col == "password" then Some(e.(password := AsText(v)))
    else if col == "name" then Some(e.(name := AsText(v)))
    else if col == "username" then Some(e.(username := AsText(v)))
    else if col == "designation" then Some(e.(designation := Some(AsText(v))))
    else if col == "photo" then Some(e.(photo := Some(AsText(v))))
    else if col == "currentsessionid" then Some(e.(currentSessionId := Some(AsText(v))))
    else if col == "isblocked" then
      match AsNumber(v)
      case None => None
      case Some(n) => Some(e.(isBlocked := n))
    else if col == "salary_per_day" then
      match AsNumber(v)
      case None => None
      case Some(n) => Some(e.(salaryPerDay := Num(n)))
    else if OtherColumn(col) then Some(e)
    else None
  }

  /** Whether `SET ${field} = ?` is accepted at all: it depends on the column and the value,
      not on the row. */
  predicate ColumnAccepts(field: string, v: Value) {
    var col := Lower(field);
    if col == "isblocked" || col == "salary_per_day" then AsNumber(v).Some?
    else (col == "role" || col == "password" || col == "name" || col == "username"
      || col == "designation" || col == "photo" || col == "currentsessionid" || OtherColumn(col))
  }

  lemma SetColumnAccepts(e: Employee, field: string, v: Value)
    ensures SetColumn(e, field, v).Some? <==> ColumnAccepts(field, v)
  {
  }

  /** The log line `${field.toUpperCase()} updated for ${targetName}`. */
  function UpdateDetail(field: string, targetName: Option<string>): (r: string)
    ensures |r| >= |field| && r[..|field|] == Upper(field)
  {
    Upper(field) + " updated for " + (if targetName.Some? then targetName.value else "undefined")
  }

  datatype UpdateStep = UpdateStep(result: UpdateResult, employees: seq<Employee>, logs: seq<LogEntry>)

  /** `PUT /api/admin/update-system`: one column of the target row, then one log row. An
      absent `targetId` matches no row and the log row is still written. */
  function UpdateTransition(emps: seq<Employee>, logs: seq<LogEntry>, targetId: Option<int>, field: string,
                            v: Value, adminName: Option<string>, targetName: Option<string>): (r: UpdateStep)
    ensures r.result.UnknownColumn? <==> !ColumnAccepts(field, v)
    ensures r.result.UnknownColumn? ==> r.employees == emps && r.logs == logs
    ensures r.result.Updated? ==> r.logs == logs + [LogEntry(adminName, UpdateDetail(field, targetName))]
    ensures |r.employees| == |emps|
    ensures r.result.Updated? ==> forall i :: 0 <= i < |emps| ==>
      r.employees[i] == if targetId == Some(emps[i].id) then SetColumn(emps[i], field, v).value else emps[i]
  {
    if !ColumnAccepts(field, v) then UpdateStep(UnknownColumn, emps, logs)
    else
      var updated := seq(|emps|, i requires 0 <= i < |emps| => UpdateRow(emps[i], targetId, field, v));
      UpdateStep(Updated, updated, logs + [LogEntry(adminName, UpdateDetail(field, targetName))])
  }

  function UpdateRow(e: Employee, targetId: Option<int>, field: string, v: Value): (r: Employee)
    requires ColumnAccepts(field, v)
    ensures r == if targetId == Some(e.id) then SetColumn(e, field, v).value else e
    ensures r.id == e.id
  {
    SetColumnAccepts(e, field, v);
    if targetId == Some(e.id) then SetColumn(e, field, v).value else e
  }

  /** With unique ids, update-system changes at most the one target row. */
  lemma UpdateTouchesOneRow(emps: seq<Employee>, logs: seq<LogEntry>, targetId: Option<int>, field: string,
                            v: Value, adminName: Option<string>, targetName: Option<string>, i: int, j: int)
    requires UniqueIds(emps)
    requires 0 <= i < |emps| && 0 <= j < |emps| && i != j
    requires UpdateTransition(emps, logs, targetId, field, v, adminName, targetName).employees[i] != emps[i]
    ensures UpdateTransition(emps, logs, targetId, field, v, adminName, targetName).employees[j] == emps[j]
  {
    if i < j { assert emps[i].id != emps[j].id; } else { assert emps[j].id != emps[i].id; }
  }

  function Summary(e: Employee): EmployeeSummary {
    EmployeeSummary(e.id, e.name, e.username, e.role, e.photo, e.isBlocked)
  }

  // ---------------------------------------------------------------------------
  // The database

  class Store {
    var employees: seq<Employee>
    var nextId: nat
    var attendance: seq<AttendanceRow>
    var payments: seq<Payment>
    var sales: seq<Sale>
    var purchases: seq<Purchase>
    var expenses: seq<Expense>
    var products: seq<Product>
    var logs: seq<LogEntry>

    /** Ids increase along the table and stay below the next auto-increment value;
        (employee_id, date) is a unique key of attendance. */
    ghost predicate Valid()
      reads this
    {
      IdsIncreasing(employees) && IdsBelow(employees, nextId) && UniqueKeys(attendance)
    }

    constructor ()
      ensures Valid()
      ensures employees == [] && attendance == [] && payments == [] && sales == [] && logs == []
      ensures purchases == [] && expenses == [] && products == []
    {
      employees, nextId, attendance, payments := [], 1, [], [];
      sales, purchases, expenses, products, logs := [], [], [], [], [];
    }

    method Login(username: string, password: string, token: string) returns (r: LoginResult)
      requires Valid()
      modifies this`employees
      ensures Valid()
      ensures var step := LoginTransition(old(employees), username, password, token);
        r == step.result && employees == step.employees
    {
      var i := 0;
      while i < |employees| && !Credentials(employees[i], username, password)
        invariant 0 <= i <= |employees|
        invariant forall j :: 0 <= j < i ==> !Credentials(employees[j], username, password)
      {
        i := i + 1;
      }
      if i == |employees| {
        return InvalidCredentials;
      }
      assert FirstMatch(employees, username, password) == Some(i);
      if employees[i].isBlocked != 0 {
        return Blocked;
      }
      var e := employees[i].(currentSessionId := Some(token));
      employees := employees[i := e];
      r := LoggedIn(e);
    }

    method SessionCheck(id: int) returns (r: Option<SessionInfo>)
      ensures r == SessionLookup(employees, id)
    {
      var i := 0;
      while i < |employees| && employees[i].id != id
        invariant 0 <= i <= |employees|
        invariant forall j :: 0 <= j < i ==> employees[j].id != id
      {
        i := i + 1;
      }
      if i == |employees| {
        return None;
      }
      assert FindById(employees, id) == Some(i);
      r := Some(SessionInfo(employees[i].currentSessionId, employees[i].isBlocked == 1));
    }

    /** `POST /api/register-admin`: an Admin account whose login id is the generated number. */
    method RegisterAdmin(name: string, password: string, photo: Option<string>, draw: nat) returns (employeeId: string)
      requires Valid() && draw < 90000000
      modifies this`employees, this`nextId
      ensures Valid()
      ensures employeeId == GeneratedId(draw)
      ensures employees == old(employees) + [Employee(old(nextId), employeeId, password, name, None, "Admin", photo, Absent, 0, None)]
      ensures nextId == old(nextId) + 1
    {
      employeeId := GeneratedId(draw);
      var e := Employee(nextId, employeeId, password, name, None, "Admin", photo, Absent, 0, None);
      AppendKeepsIds(employees, e, nextId);
      employees := employees + [e];
      nextId := nextId + 1;
    }

    /** `POST /api/employees/register`: the role is clamped and the account starts unblocked. */
    method RegisterEmployee(name: string, password: string, designation: Option<string>, photo: Option<string>, salary: Numeric, draw: nat)
      returns (employeeId: string)
      requires Valid() && draw < 90000000
      modifies this`employees, this`nextId
      ensures Valid()
      ensures employeeId == GeneratedId(draw)
      ensures employees == old(employees) + [Employee(old(nextId), employeeId, password, name, designation, ClampRole(designation), photo, salary, 0, None)]
      ensures nextId == old(nextId) + 1
    {
      employeeId := GeneratedId(draw);
      var e := Employee(nextId, employeeId, password, name, designation, ClampRole(designation), photo, salary, 0, None);
      AppendKeepsIds(employees, e, nextId);
      employees := employees + [e];
      nextId := nextId + 1;
    }

    /** `GET /api/employees`: id, name, username, role, photo and isBlocked of each row. */
    method ListEmployees() returns (r: seq<EmployeeSummary>)
      ensures |r| == |employees|
      ensures forall i :: 0 <= i < |r| ==> r[i] == Summary(employees[i])
    {
      r := [];
      var i := 0;
      while i < |employees|
        invariant 0 <= i <= |employees|
        invariant |r| == i
        invariant forall k :: 0 <= k < i ==> r[k] == Summary(employees[k])
      {
        r := r + [Summary(employees[i])];
        i := i + 1;
      }
    }

    /** `DELETE /api/employees/:id` */
    method DeleteEmployee(id: int)
      requires Valid()
      modifies this`employees
      ensures Valid()
      ensures employees == Filter(old(employees), (e: Employee) => e.id != id)
    {
      FilterKeepsOrder(employees, id, nextId);
      employees := Filter(employees, (e: Employee) => e.id != id);
    }

    /** `POST /api/attendance` */
    method MarkAttendance(employeeId: int, date: Date, status: string)
      requires Valid()
      modifies this`attendance
      ensures Valid()
      ensures attendance == Upsert(old(attendance), employeeId, date, status)
    {
      UpsertKeepsKeysUnique(attendance, employeeId, date, status);
      attendance := Upsert(attendance, employeeId, date, status);
    }

    /** `GET /api/attendance/history/:empId` */
    method AttendanceHistory(employeeId: int) returns (r: seq<DayMark>)
      ensures r == History(attendance, employeeId)
    {
      r := History(attendance, employeeId);
    }

    /** `POST /api/salary/advance`: one payment row dated `today`, appended. */
    method RecordAdvance(employeeId: int, amount: Numeric, kind: Option<string>, today: Date)
      modifies this`payments
      ensures payments == old(payments) + [Payment(employeeId, amount, today, kind)]
    {
      payments := payments + [Payment(employeeId, amount, today, kind)];
    }

    /** `GET /api/sales/next-si` */
    method NextSi() returns (r: int)
      ensures r == NextSiOf(sales)
    {
      var max: Option<int> := None;
      var i := 0;
      while i < |sales|
        invariant 0 <= i <= |sales|
        invariant max == MaxSi(sales[..i])
      {
        assert sales[..i + 1][..i] == sales[..i];
        if sales[i].si.Some? && (max.None? || max.value < sales[i].si.value) {
          max := sales[i].si;
        }
        i := i + 1;
      }
      assert sales[..i] == sales;
      r := if max.None? || max.value == 0 then 1 else max.value + 1;
    }

    /** `POST /api/sales` */
    method InsertSale(s: Sale)
      modifies this`sales
      ensures sales == old(sales) + [s]
    {
      sales := sales + [s];
    }

    /** `GET /api/finance/profit-loss` */
    method ProfitLoss() returns (r: Totals)
      ensures r == ProfitLossTotals(sales, purchases, expenses)
    {
      r := ProfitLossTotals(sales, purchases, expenses);
    }

    /** `GET /api/reports/:category` */
    method GetReport(category: string) returns (r: Report)
      ensures r == ReportFor(category, sales, purchases, products)
    {
      r := ReportFor(category, sales, purchases, products);
    }

    /** `GET /api/dashboard/stats` */
    method DashboardStats() returns (totalSales: nat, totalProducts: nat)
      ensures totalSales == |sales| && totalProducts == |products|
    {
      totalSales, totalProducts := |sales|, |products|;
    }

    /** `GET /api/logs` */
    method RecentActivity() returns (r: seq<LogEntry>)
      ensures r == RecentLogs(logs)
    {
      r := RecentLogs(logs);
    }

    /** `PUT /api/admin/update-system` */
    method UpdateSystem(targetId: Option<int>, field: string, v: Value, adminName: Option<string>, targetName: Option<string>)
      returns (r: UpdateResult)
      requires Valid()
      modifies this`employees, this`logs
      ensures Valid()
      ensures var step := UpdateTransition(old(employees), old(logs), targetId, field, v, adminName, targetName);
        r == step.result && employees == step.employees && logs == step.logs
    {
      var step := UpdateTransition(employees, logs, targetId, field, v, adminName, targetName);
      if step.result.Updated? {
        forall i | 0 <= i < |employees| ensures step.employees[i].id == employees[i].id {
          if targetId == Some(employees[i].id) {
            SetColumnAccepts(employees[i], field, v);
          }
        }
      }
      employees, logs := step.employees, step.logs;
      r := step.result;
    }
  }

  /** Deleting rows keeps ids increasing and below the counter. */
  lemma FilterKeepsOrder(emps: seq<Employee>, id: int, bound: int)
    requires IdsIncreasing(emps) && IdsBelow(emps, bound)
    ensures IdsIncreasing(Filter(emps, (e: Employee) => e.id != id))
    ensures IdsBelow(Filter(emps, (e: Employee) => e.id != id), bound)
  {
    SubseqKeepsIncreasing(Filter(emps, (e: Employee) => e.id != id), emps);
  }

  lemma {:induction false} SubseqKeepsIncreasing(r: seq<Employee>, s: seq<Employee>)
    requires IsSubseq(r, s)
    requires IdsIncreasing(s)
    ensures IdsIncreasing(r)
    ensures forall i :: 0 <= i < |r| ==> r[i] in s
    decreases |s|
  {
    if r == [] {
    } else if r[0] == s[0] {
      SubseqKeepsIncreasing(r[1..], s[1..]);
      forall j | 0 < j < |r| ensures r[0].id < r[j].id {
        assert r[j] == r[1..][j - 1];
        var k :| 0 <= k < |s[1..]| && s[1..][k] == r[j];
        assert s[k + 1] == r[j];
      }
    } else {
      SubseqKeepsIncreasing(r, s[1..]);
    }
  }
}
