/** The daily attendance screen: the employee list with its search box, the marks
    already recorded for the chosen date, and the buttons that post a mark. */
module AttendanceScreen {
  import opened Common
  import opened Text
  import opened Roles
  import opened Ledger

  /** This screen's `maskID`, written with the `<= 4` test the other way round. */
  function Mask(id: JsId): (r: string)
    ensures !IdTruthy(id) ==> r == "---"
    ensures IdTruthy(id) && |IdString(id)| <= 4 ==> r == IdString(id)
  {
    if !IdTruthy(id) then "---"
    else
      var s := IdString(id);
      if |s| <= 4 then s else "XXXX" + s[|s| - 4..]
  }

  /** It masks exactly as the ledger screen does. */
  lemma MaskAgreesWithLedger(id: JsId)
    ensures Mask(id) == MaskId(id)
  {
  }

  /** The key a value gets as a JavaScript object property. */
  function PropertyKey(id: JsId): string {
    if id.NoId? then "undefined" else IdString(id)
  }

  /** A record of the day as the screen keeps it; `{ ...undefined, status }` has only a status. */
  datatype Entry = Entry(employeeId: JsId, date: Option<string>, status: Option<string>)

  datatype Person = Person(name: Option<string>, empId: JsId, username: Option<string>)

  /** The search: the name is lower-cased before the test, the id and username are not,
      while the term always is. */
  predicate Matches(p: Person, search: string) {
    var term := Lower(search);
    LowerContains(p.name, term) || IdContains(p.empId, term)
    || (p.username.Some? && Contains(p.username.value, term))
  }

  function Visible(people: seq<Person>, search: string): (r: seq<Person>)
    ensures forall p :: p in r <==> p in people && Matches(p, search)
    ensures IsSubseq(r, people)
  {
    Filter(people, p => Matches(p, search))
  }

  /** An empty search shows everyone who has a name, an id or a username. */
  lemma EmptySearchShowsEveryone(people: seq<Person>)
    requires forall p :: p in people ==> p.name.Some? || !p.empId.NoId? || p.username.Some?
    ensures Visible(people, "") == people
  {
    forall p | p in people ensures Matches(p, "") {
      assert Lower("") == "";
      if p.name.Some? { ContainsEmpty(Lower(p.name.value)); }
      else if !p.empId.NoId? { ContainsEmpty(IdString(p.empId)); }
      else { ContainsEmpty(p.username.value); }
    }
    FilterAll(people, p => Matches(p, ""));
  }

  /** The lookup `attObj` built by `data.forEach(item => attObj[item.employee_id] = item)`. */
  function ByEmployee(items: seq<Entry>): (m: map<string, Entry>)
    ensures forall k :: k in m <==> exists i :: 0 <= i < |items| && PropertyKey(items[i].employeeId) == k
  {
    if items == [] then map[]
    else
      var last := items[|items| - 1];
      var m := ByEmployee(items[..|items| - 1]);
      assert forall i :: 0 <= i < |items| - 1 ==> items[..|items| - 1][i] == items[i];
      m[PropertyKey(last.employeeId) := last]
  }

  /** Of several items for one employee, the last one is kept. */
  lemma {:induction false} ByEmployeeLastWins(items: seq<Entry>, i: nat)
    requires i < |items|
    requires forall j :: i < j < |items| ==> PropertyKey(items[j].employeeId) != PropertyKey(items[i].employeeId)
    ensures PropertyKey(items[i].employeeId) in ByEmployee(items)
    ensures ByEmployee(items)[PropertyKey(items[i].employeeId)] == items[i]
  {
    if i < |items| - 1 {
      var prefix := items[..|items| - 1];
      assert prefix[i] == items[i];
      ByEmployeeLastWins(prefix, i);
    }
  }

  /** The answer to the day's attendance request. */
  datatype DayResponse = FetchFailed | NotAList | Items(items: seq<Entry>)

  datatype AttendancePost = AttendancePost(employeeId: JsId, date: string, status: string)

  /** How the post ended: saved, answered without `success`, or failed. */
  datatype PostOutcome = Saved | NotSaved | Failed(message: string)

  class AttendanceBoard {
    var people: seq<Person>
    var attendance: map<string, Entry>
    var date: string
    var search: string
    var submitting: Option<JsId>

    constructor (today: string)
      ensures people == [] && attendance == map[] && date == today && search == "" && submitting.None?
    {
      people, attendance, date, search, submitting := [], map[], today, "", None;
    }

    /** `fetchAttendance`: a list replaces the lookup, an answer that is not a list empties
        it, and a failed request leaves it as it was. */
    method LoadDay(response: DayResponse)
      modifies this`attendance
      ensures response.FetchFailed? ==> attendance == old(attendance)
      ensures response.NotAList? ==> attendance == map[]
      ensures response.Items? ==> attendance == ByEmployee(response.items)
    {
      match response
      case FetchFailed =>
      case NotAList =>
        attendance := map[];
      case Items(items) =>
        var m: map<string, Entry> := map[];
        var i := 0;
        while i < |items|
          invariant 0 <= i <= |items|
          invariant m == ByEmployee(items[..i])
        {
          assert items[..i + 1][..i] == items[..i];
          m := m[PropertyKey(items[i].employeeId) := items[i]];
          i := i + 1;
        }
        assert items[..i] == items;
        attendance := m;
    }

    /** `markAttendance`. Without the right role nothing is sent and nothing changes.
        Otherwise the row is marked busy while the post is out (`busy`), a saved post
        replaces the status of that employee's entry only, and the busy mark is always
        cleared. */
    method MarkAttendance(role: Option<string>, empId: JsId, status: string, outcome: PostOutcome)
      returns (request: Option<AttendancePost>, busy: Option<JsId>, alert: bool)
      modifies this`attendance, this`submitting
      ensures !CanMarkAttendance(role) ==>
        request.None? && alert && attendance == old(attendance) && submitting == old(submitting)
      ensures CanMarkAttendance(role) ==>
        request == Some(AttendancePost(empId, date, status)) && busy == Some(empId) && submitting.None?
      ensures CanMarkAttendance(role) && outcome.Saved? ==>
        var k := PropertyKey(empId);
        var before := if k in old(attendance) then old(attendance)[k] else Entry(NoId, None, None);
        attendance == old(attendance)[k := before.(status := Some(status))]
      ensures CanMarkAttendance(role) && !outcome.Saved? ==> attendance == old(attendance)
      ensures CanMarkAttendance(role) ==> (alert <==> outcome.Failed?)
    {
      busy := None;
      if !CanMarkAttendance(role) {
        return None, None, true;
      }
      submitting := Some(empId);
      busy := submitting;
      request := Some(AttendancePost(empId, date, status));
      alert := false;
      match outcome {
        case Saved =>
          var k := PropertyKey(empId);
          var before := if k in attendance then attendance[k] else Entry(NoId, None, None);
          attendance := attendance[k := before.(status := Some(status))];
        case NotSaved =>
        case Failed(_) =>
          alert := true;
      }
      submitting := None;
    }
  }
}
