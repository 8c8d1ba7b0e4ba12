/** The sales entry form: live totals and the bill due date fifteen days after the
    entry date, the role guard on submit, and the reset after a save. */
module SalesEntry {
  import opened Common
  import opened Roles
  import opened Dates

  /** The form; `None` is an empty date input, which otherwise holds a real date. */
  datatype EntryForm = EntryForm(
    date: Option<Date>,
    customerName: string,
    productName: string,
    billNo: string,
    quantity: Numeric,
    rate: Numeric,
    totalPrice: int,
    amountReceived: Numeric,
    paymentDue: int,
    remarks: string,
    billDueDate: Option<Date>)

  predicate DateOk(d: Option<Date>) {
    d.None? || Valid(d.value)
  }

  /** `initialState`, dated today. */
  function Initial(today: Date): (r: EntryForm)
    ensures r.date == Some(today) && r.totalPrice == 0 && r.paymentDue == 0 && r.billDueDate.None?
  {
    EntryForm(Some(today), "", "", "", Absent, Absent, 0, Absent, 0, "", None)
  }

  /** The values the live calculation depends on. */
  function Inputs(f: EntryForm): (Option<Date>, Numeric, Numeric, Numeric) {
    (f.date, f.quantity, f.rate, f.amountReceived)
  }

  /** The live calculation: total = quantity * rate, due = total - received (non-numbers
      as 0), and the due date fifteen days after the date, or empty without one. */
  function Live(f: EntryForm): (r: EntryForm)
    requires DateOk(f.date)
    ensures r == f.(totalPrice := r.totalPrice, paymentDue := r.paymentDue, billDueDate := r.billDueDate)
    ensures r.totalPrice == NumberOr0(f.quantity) * NumberOr0(f.rate)
    ensures r.paymentDue == r.totalPrice - NumberOr0(f.amountReceived)
    ensures f.date.None? <==> r.billDueDate.None?
    ensures f.date.Some? ==>
      (Valid(r.billDueDate.value) && DayNumber(r.billDueDate.value) == DayNumber(f.date.value) + 15)
  {
    var total := NumberOr0(f.quantity) * NumberOr0(f.rate);
    var due := if f.date.Some? then Some(AddDays(f.date.value, 15)) else None;
    f.(totalPrice := total, paymentDue := total - NumberOr0(f.amountReceived), billDueDate := due)
  }

  /** The due date lies after the entry date. */
  lemma DueDateAfterEntry(f: EntryForm)
    requires DateOk(f.date) && f.date.Some?
    ensures Before(f.date.value, Live(f).billDueDate.value)
  {
    BeforeIffDayNumber(f.date.value, Live(f).billDueDate.value);
  }

  /** The totals agree with the inputs. */
  predicate TotalsAgree(f: EntryForm) {
    f.totalPrice == NumberOr0(f.quantity) * NumberOr0(f.rate)
    && f.paymentDue == f.totalPrice - NumberOr0(f.amountReceived)
  }

  datatype EntryField =
    | DateField(date: Option<Date>)
    | ProductField(product: string)
    | BillField(billNo: string)
    | CustomerField(name: string)
    | QuantityField(quantity: Numeric)
    | RateField(rate: Numeric)
    | ReceivedField(received: Numeric)
    | RemarksField(remarks: string)

  function SetField(f: EntryForm, e: EntryField): EntryForm {
    match e
    case DateField(d) => f.(date := d)
    case ProductField(p) => f.(productName := p)
    case BillField(b) => f.(billNo := b)
    case CustomerField(n) => f.(customerName := n)
    case QuantityField(q) => f.(quantity := q)
    case RateField(r) => f.(rate := r)
    case ReceivedField(a) => f.(amountReceived := a)
    case RemarksField(s) => f.(remarks := s)
  }

  /** A change followed by the effect, which runs only when one of its inputs changed. */
  function AfterChange(f: EntryForm, next: EntryForm): (r: EntryForm)
    requires DateOk(next.date)
    ensures Inputs(next) != Inputs(f) ==> r == Live(next)
    ensures Inputs(next) == Inputs(f) ==> r == next
  {
    if Inputs(next) != Inputs(f) then Live(next) else next
  }

  /** Clearing a form whose quantity, rate, received amount and date already had their
      initial values leaves the due date blank, although the entry date is set. */
  lemma ResetCanBlankDueDate(f: EntryForm, today: Date)
    requires Inputs(f) == Inputs(Initial(today)) && Valid(today)
    ensures AfterChange(f, Initial(today)).date == Some(today)
    ensures AfterChange(f, Initial(today)).billDueDate.None?
  {
  }

  /** What a submit sends: the form plus `si`. */
  datatype SalePost = SalePost(form: EntryForm, si: int)

  datatype Outcome = Saved | NotSaved | Failed(message: Option<string>)

  datatype Snack = Snack(message: string, severity: string)

  class SalesEntryScreen {
    var form: EntryForm
    var nextSi: int
    var snack: Option<Snack>

    ghost predicate Valid()
      reads this
    {
      DateOk(form.date) && TotalsAgree(form)
    }

    /** Mount: the initial state, SI 1 until the server answers, and the effect's first run. */
    constructor (today: Date)
      requires Dates.Valid(today)
      ensures Valid()
      ensures form == Live(Initial(today)) && nextSi == 1 && snack.None?
    {
      form := Live(Initial(today));
      nextSi := 1;
      snack := None;
    }

    /** `fetchNextSi`: a failed request keeps the number shown. */
    method FetchNextSi(response: Option<int>)
      modifies this`nextSi
      ensures nextSi == if response.Some? then response.value else old(nextSi)
    {
      if response.Some? {
        nextSi := response.value;
      }
    }

    method HandleChange(e: EntryField)
      requires Valid()
      requires DateOk(SetField(form, e).date)
      modifies this`form
      ensures Valid()
      ensures form == AfterChange(old(form), SetField(old(form), e))
    {
      form := AfterChange(form, SetField(form, e));
    }

    /** `handleReset`: back to the initial state, with a notice for the permitted roles. */
    method HandleReset(role: Option<string>, today: Date)
      requires Valid() && Dates.Valid(today)
      modifies this`form, this`snack
      ensures Valid()
      ensures form == AfterChange(old(form), Initial(today))
      ensures CanEditAccounts(role) ==> snack == Some(Snack("Form cleared", "info"))
      ensures !CanEditAccounts(role) ==> snack == old(snack)
    {
      form := AfterChange(form, Initial(today));
      if CanEditAccounts(role) {
        snack := Some(Snack("Form cleared", "info"));
      }
    }

    /** `handleSubmit`: other roles send nothing; otherwise the form goes out with the
        current SI, and a save clears the form and fetches the next SI. */
    method HandleSubmit(role: Option<string>, outcome: Outcome, today: Date, siResponse: Option<int>)
      returns (request: Option<SalePost>)
      requires Valid() && Dates.Valid(today)
      modifies this`form, this`snack, this`nextSi
      ensures Valid()
      ensures !CanEditAccounts(role) ==> request.None? && form == old(form) && nextSi == old(nextSi)
      ensures !CanEditAccounts(role) ==> snack == Some(Snack("Unauthorized: Permission Denied!", "error"))
      ensures CanEditAccounts(role) ==> request == Some(SalePost(old(form), old(nextSi)))
      ensures CanEditAccounts(role) && outcome.Saved? ==> form == AfterChange(old(form), Initial(today))
      ensures CanEditAccounts(role) && outcome.Saved? ==>
        nextSi == (if siResponse.Some? then siResponse.value else old(nextSi))
      ensures CanEditAccounts(role) && !outcome.Saved? ==> form == old(form) && nextSi == old(nextSi)
      ensures CanEditAccounts(role) && outcome.NotSaved? ==> snack == old(snack)
      ensures CanEditAccounts(role) && outcome.Failed? ==> snack.Some? && snack.value.severity == "error"
    {
      if !CanEditAccounts(role) {
        snack := Some(Snack("Unauthorized: Permission Denied!", "error"));
        return None;
      }
      request := Some(SalePost(form, nextSi));
      match outcome {
        case Saved =>
          HandleReset(role, today);
          FetchNextSi(siResponse);
        case NotSaved =>
        case Failed(message) =>
          snack := Some(Snack("Data save nahi ho paya. " + (if message.Some? then message.value else ""), "error"));
      }
    }
  }
}
