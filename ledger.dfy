/** The employee ledger screen: the masked id, the month's attendance counters, the
    calendar colouring, and the pay figures derived from the counters and the advance
    history. */
module Ledger {
  import opened Common
  import opened Text
  import opened Dates
  import opened Roles

  /** An employee id as JavaScript sees it: missing, a number, or a string. */
  datatype JsId = NoId | IdNum(n: int) | IdText(s: string)

  predicate IdTruthy(id: JsId) {
    match id
    case NoId => false
    case IdNum(n) => n != 0
    case IdText(s) => s != ""
  }

  /** `id.toString()` */
  function IdString(id: JsId): string {
    match id
    case NoId => ""
    case IdNum(n) => IntString(n)
    case IdText(s) => s
  }

  /** `id?.toString().includes(term)`: a missing id never matches. */
  predicate IdContains(id: JsId, term: string) {
    !id.NoId? && Contains(IdString(id), term)
  }

  /** `maskID`: "---" for a falsy id, the id itself when it has at most four characters,
      otherwise "XXXX" followed by its last four characters. */
  function MaskId(id: JsId): (r: string)
    ensures !IdTruthy(id) ==> r == "---"
    ensures IdTruthy(id) && |IdString(id)| <= 4 ==> r == IdString(id)
    ensures IdTruthy(id) && |IdString(id)| > 4 ==>
      |r| == 8 && r[..4] == "XXXX" && r[4..] == IdString(id)[|IdString(id)| - 4..]
  {
    if !IdTruthy(id) then "---"
    else
      var s := IdString(id);
      if |s| > 4 then "XXXX" + s[|s| - 4..] else s
  }

  /** A long id shows nothing but its last four characters: two ids that end alike
      are masked alike. */
  lemma MaskHidesAllButLastFour(a: JsId, b: JsId)
    requires IdTruthy(a) && IdTruthy(b)
    requires |IdString(a)| > 4 && |IdString(b)| > 4
    requires IdString(a)[|IdString(a)| - 4..] == IdString(b)[|IdString(b)| - 4..]
    ensures MaskId(a) == MaskId(b)
  {
  }

  // ---------------------------------------------------------------------------
  // Attendance counters

  datatype AttendanceRecord = AttendanceRecord(date: Date, status: string)

  datatype Stats = Stats(present: nat, absent: nat, halfDay: nat)

  /** `d.getMonth() === currentMonth`: `getMonth()` counts months from 0, and the year is
      not compared. */
  predicate InMonth(rec: AttendanceRecord, currentMonth: int) {
    rec.date.month - 1 == currentMonth
  }

  /** The number of records of the month with the given status. */
  function CountIn(recs: seq<AttendanceRecord>, currentMonth: int, status: string): nat {
    if recs == [] then 0
    else
      var last := recs[|recs| - 1];
      CountIn(recs[..|recs| - 1], currentMonth, status) + (if InMonth(last, currentMonth) && last.status == status then 1 else 0)
  }

  function MonthStats(recs: seq<AttendanceRecord>, currentMonth: int): Stats {
    Stats(CountIn(recs, currentMonth, "Present"), CountIn(recs, currentMonth, "Absent"), CountIn(recs, currentMonth, "Half-Day"))
  }

  /** The number of records dated in the month, whatever their status. */
  function InMonthCount(recs: seq<AttendanceRecord>, currentMonth: int): nat {
    if recs == [] then 0
    else InMonthCount(recs[..|recs| - 1], currentMonth) + (if InMonth(recs[|recs| - 1], currentMonth) then 1 else 0)
  }

  /** Each record raises at most one counter, and only when it lies in the month. */
  lemma {:induction false} StatsBounded(recs: seq<AttendanceRecord>, currentMonth: int)
    ensures var s := MonthStats(recs, currentMonth);
      s.present + s.absent + s.halfDay <= InMonthCount(recs, currentMonth) <= |recs|
  {
    if recs != [] {
      StatsBounded(recs[..|recs| - 1], currentMonth);
    }
  }

  /** Records of the same month in another year are counted as if they were this year's. */
  lemma {:induction false} YearIgnored(recs: seq<AttendanceRecord>, other: seq<AttendanceRecord>, currentMonth: int)
    requires |other| == |recs|
    requires forall i :: 0 <= i < |recs| ==> other[i].status == recs[i].status && other[i].date.month == recs[i].date.month
    ensures MonthStats(other, currentMonth) == MonthStats(recs, currentMonth)
  {
    if recs != [] {
      YearIgnored(recs[..|recs| - 1], other[..|other| - 1], currentMonth);
    }
  }

  /** The calendar map `empHistory`: for each date, the status of its last record. */
  function DayStatuses(recs: seq<AttendanceRecord>): (m: map<Date, string>)
  {
    if recs == [] then map[]
    else
      var last := recs[|recs| - 1];
      DayStatuses(recs[..|recs| - 1])[last.date := last.status]
  }

  /** The calendar map has a key exactly for the dates that some record carries. */
  lemma {:induction false} DayStatusesDomain(recs: seq<AttendanceRecord>, d: Date)
    ensures d in DayStatuses(recs) <==> exists i :: 0 <= i < |recs| && recs[i].date == d
  {
    if recs != [] {
      var prefix := recs[..|recs| - 1];
      DayStatusesDomain(prefix, d);
      if exists i :: 0 <= i < |prefix| && prefix[i].date == d {
        var i :| 0 <= i < |prefix| && prefix[i].date == d;
        assert recs[i] == prefix[i];
      }
      if exists i :: 0 <= i < |recs| && recs[i].date == d {
        var i :| 0 <= i < |recs| && recs[i].date == d;
        if i < |prefix| {
          assert prefix[i] == recs[i];
        }
      }
    }
  }

  /** A date's last record decides its status on the calendar. */
  lemma {:induction false} DayStatusesLastWins(recs: seq<AttendanceRecord>, i: nat)
    requires i < |recs|
    requires forall j :: i < j < |recs| ==> recs[j].date != recs[i].date
    ensures recs[i].date in DayStatuses(recs) && DayStatuses(recs)[recs[i].date] == recs[i].status
  {
    var prefix := recs[..|recs| - 1];
    if i < |recs| - 1 {
      assert prefix[i] == recs[i];
      forall j | i < j < |prefix| ensures prefix[j].date != prefix[i].date {
        assert prefix[j] == recs[j];
      }
      DayStatusesLastWins(prefix, i);
    }
  }

  /** `getTileClassName`: the calendar colour of a day. */
  function TileClass(days: map<Date, string>, d: Date): (r: Option<string>)
    ensures r == Some("cal-present") <==> d in days && days[d] == "Present"
    ensures r == Some("cal-absent") <==> d in days && days[d] == "Absent"
    ensures r == Some("cal-halfday") <==> d in days && days[d] == "Half-Day"
    ensures r.None? <==> d !in days || (days[d] != "Present" && days[d] != "Absent" && days[d] != "Half-Day")
  {
    if d in days && days[d] == "Present" then Some("cal-present")
    else if d in days && days[d] == "Absent" then Some("cal-absent")
    else if d in days && days[d] == "Half-Day" then Some("cal-halfday")
    else None
  }

  /** One more record moves each counter by at most one and overwrites its day. */
  lemma CountStep(recs: seq<AttendanceRecord>, i: nat, currentMonth: int)
    requires i < |recs|
    ensures var rec := recs[i];
      && MonthStats(recs[..i + 1], currentMonth) == Stats(
        MonthStats(recs[..i], currentMonth).present + (if InMonth(rec, currentMonth) && rec.status == "Present" then 1 else 0),
        MonthStats(recs[..i], currentMonth).absent + (if InMonth(rec, currentMonth) && rec.status == "Absent" then 1 else 0),
        MonthStats(recs[..i], currentMonth).halfDay + (if InMonth(rec, currentMonth) && rec.status == "Half-Day" then 1 else 0))
      && DayStatuses(recs[..i + 1]) == DayStatuses(recs[..i])[rec.date := rec.status]
  {
    assert recs[..i + 1][..i] == recs[..i];
  }

  /** The `attData.forEach` loop of `viewLedger`: the month's counters and the calendar map. */
  method CountMonth(recs: seq<AttendanceRecord>, currentMonth: int) returns (stats: Stats, days: map<Date, string>)
    ensures stats == MonthStats(recs, currentMonth)
    ensures days == DayStatuses(recs)
  {
    var p, a, h := 0, 0, 0;
    days := map[];
    var i := 0;
    while i < |recs|
      invariant 0 <= i <= |recs|
      invariant Stats(p, a, h) == MonthStats(recs[..i], currentMonth)
      invariant days == DayStatuses(recs[..i])
    {
      CountStep(recs, i, currentMonth);
      var rec := recs[i];
      days := days[rec.date := rec.status];
      if rec.date.month - 1 == currentMonth {
        if rec.status == "Present" { p := p + 1; }
        if rec.status == "Absent" { a := a + 1; }
        if rec.status == "Half-Day" { h := h + 1; }
      }
      i := i + 1;
    }
    assert recs[..i] == recs;
    stats := Stats(p, a, h);
  }

  // ---------------------------------------------------------------------------
  // Pay

  /** The fields of the selected employee that carry a daily wage. */
  datatype Worker = Worker(id: JsId, salaryPerDay: Numeric, salary: Numeric, perDaySalary: Numeric)

  /** `Number(salary_per_day || salary || perDaySalary || 0)`: the first truthy field wins. */
  function DailyRate(w: Worker): (r: int)
    ensures Truthy(w.salaryPerDay) ==> r == NumberOr0(w.salaryPerDay)
    ensures !Truthy(w.salaryPerDay) && Truthy(w.salary) ==> r == NumberOr0(w.salary)
    ensures !Truthy(w.salaryPerDay) && !Truthy(w.salary) ==> r == NumberOr0(w.perDaySalary)
  {
    if Truthy(w.salaryPerDay) then NumberOr0(w.salaryPerDay)
    else if Truthy(w.salary) then NumberOr0(w.salary)
    else NumberOr0(w.perDaySalary)
  }

  /** A zero wage read from text (`"0.00"`) is truthy and stops the fallback. */
  lemma ZeroTextStopsFallback(w: Worker)
    requires w.salaryPerDay == Digits(0) && Truthy(w.salary)
    ensures DailyRate(w) == 0
  {
  }

  datatype PaymentRecord = PaymentRecord(amount: Numeric)

  function Amount(p: PaymentRecord): int { NumberOr0(p.amount) }

  /** `paymentHistory.reduce((sum, p) => sum + Number(p.amount), 0)`: every payment ever
      made, with no month filter. */
  function TotalAdvance(payments: seq<PaymentRecord>): int {
    SumOf(payments, Amount)
  }

  /** A new advance raises the total by its amount, whatever its date. */
  lemma AdvanceAdds(payments: seq<PaymentRecord>, p: PaymentRecord)
    ensures TotalAdvance(payments + [p]) == TotalAdvance(payments) + Amount(p)
  {
    SumAppend(payments, p, Amount);
  }

  /** `Math.round(present * rate + halfDay * (rate / 2))` for a whole-number rate: the
      exact value is x / 2 with x = 2 * present * rate + halfDay * rate, and Math.round
      rounds halves upwards. */
  function EarnedSalary(present: nat, halfDay: nat, rate: int): (r: int)
    ensures var x := 2 * present * rate + halfDay * rate;
      2 * r == x || 2 * r == x + 1
  {
    (2 * present * rate + halfDay * rate + 1) / 2
  }

  /** With an even rate, or an even number of half-days, nothing is rounded. */
  lemma EarnedExactWhenEven(present: nat, halfDay: nat, rate: int)
    requires rate % 2 == 0 || halfDay % 2 == 0
    ensures 2 * EarnedSalary(present, halfDay, rate) == 2 * present * rate + halfDay * rate
  {
    var x := 2 * present * rate + halfDay * rate;
    if rate % 2 == 0 {
      var k := rate / 2;
      assert x == 2 * (2 * present * k + halfDay * k);
    } else {
      var k := halfDay / 2;
      assert x == 2 * (present * rate + k * rate);
    }
  }

  lemma EarnedExample()
    ensures EarnedSalary(20, 2, 500) == 10500
    ensures EarnedSalary(0, 1, 333) == 167
  {
  }

  /** `earnedSalary - totalAdvance`, not clamped at zero. */
  function NetPayable(earned: int, totalAdvance: int): (r: int)
    ensures r + totalAdvance == earned
    ensures r < 0 <==> totalAdvance > earned
  {
    earned - totalAdvance
  }

  lemma NetPayableCanBeNegative()
    ensures NetPayable(EarnedSalary(0, 1, 200), TotalAdvance([PaymentRecord(Digits(500))])) == -400
  {
    assert [PaymentRecord(Digits(500))][1..] == [];
  }

  // ---------------------------------------------------------------------------
  // The screen

  datatype AdvanceRequest = AdvanceRequest(employeeId: JsId, amount: string, kind: string)

  class LedgerScreen {
    var selected: Option<Worker>
    var paymentHistory: seq<PaymentRecord>
    var stats: Stats
    var days: map<Date, string>
    var advanceAmount: string
    var fetchingDetail: bool

    constructor ()
      ensures selected == None && paymentHistory == [] && stats == Stats(0, 0, 0)
      ensures days == map[] && advanceAmount == "" && !fetchingDetail
    {
      selected, paymentHistory, stats, days, advanceAmount, fetchingDetail := None, [], Stats(0, 0, 0), map[], "", false;
    }

    /** `viewLedger(emp)`: both requests are awaited before anything is shown, so when
        either fails (`None`) nothing but the selection changes; otherwise the payments
        replace the history and the records give the counters and the calendar. */
    method ViewLedger(emp: Worker, payments: Option<seq<PaymentRecord>>, attendance: Option<seq<AttendanceRecord>>, currentMonth: int)
      modifies this
      ensures selected == Some(emp) && !fetchingDetail
      ensures advanceAmount == old(advanceAmount)
      ensures paymentHistory == if payments.Some? && attendance.Some? then payments.value else old(paymentHistory)
      ensures payments.Some? && attendance.Some? ==>
        stats == MonthStats(attendance.value, currentMonth) && days == DayStatuses(attendance.value)
      ensures payments.None? || attendance.None? ==> stats == old(stats) && days == old(days)
    {
      fetchingDetail := true;
      selected := Some(emp);
      if payments.Some? && attendance.Some? {
        paymentHistory := payments.value;
        stats, days := CountMonth(attendance.value, currentMonth);
      }
      fetchingDetail := false;
    }

    /** `handlePayment`: refused without Admin or Accountant rights; with no employee
        selected the request cannot be built. After a saved advance the amount field is
        cleared and the ledger is reloaded. */
    method HandlePayment(role: Option<string>, saved: bool, payments: Option<seq<PaymentRecord>>,
                         attendance: Option<seq<AttendanceRecord>>, currentMonth: int)
      returns (request: Option<AdvanceRequest>)
      modifies this
      ensures !CanEditAccounts(role) || old(selected).None? ==> request.None?
      ensures !CanEditAccounts(role) || old(selected).None? || !saved ==>
        selected == old(selected) && paymentHistory == old(paymentHistory) && stats == old(stats)
        && days == old(days) && advanceAmount == old(advanceAmount)
      ensures CanEditAccounts(role) && old(selected).Some? ==>
        request == Some(AdvanceRequest(old(selected).value.id, old(advanceAmount), "Advance"))
      ensures CanEditAccounts(role) && old(selected).Some? && saved ==>
        advanceAmount == "" && selected == old(selected)
        && paymentHistory == (if payments.Some? && attendance.Some? then payments.value else old(paymentHistory))
      ensures CanEditAccounts(role) && old(selected).Some? && saved && payments.Some? && attendance.Some? ==>
        stats == MonthStats(attendance.value, currentMonth) && days == DayStatuses(attendance.value)
      ensures CanEditAccounts(role) && old(selected).Some? && saved && (payments.None? || attendance.None?) ==>
        stats == old(stats) && days == old(days)
    {
      if !CanEditAccounts(role) || selected.None? {
        return None;
      }
      request := Some(AdvanceRequest(selected.value.id, advanceAmount, "Advance"));
      if saved {
        advanceAmount := "";
        ViewLedger(selected.value, payments, attendance, currentMonth);
      }
    }
  }
}
