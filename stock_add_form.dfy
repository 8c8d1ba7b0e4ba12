/** The stock entry form: totals recomputed when quantity, rate or paid amount change,
    and the role guard on submit. */
module StockAddForm {
  import opened Common
  import opened Roles

  datatype StockForm = StockForm(
    date: string,
    supplierName: string,
    productName: string,
    billNo: string,
    quantity: Numeric,
    rate: Numeric,
    totalAmount: int,
    paidAmount: Numeric,
    balanceAmount: int,
    remarks: string)

  /** `initialState`, dated with today's `YYYY-MM-DD` text. */
  function Initial(today: string): StockForm {
    StockForm(today, "", "", "", Absent, Absent, 0, Absent, 0, "")
  }

  /** total = quantity * rate and balance = total - paid, non-numbers as 0. */
  predicate TotalsAgree(f: StockForm) {
    f.totalAmount == NumberOr0(f.quantity) * NumberOr0(f.rate)
    && f.balanceAmount == f.totalAmount - NumberOr0(f.paidAmount)
  }

  datatype StockField =
    | DateField(date: string)
    | SupplierField(name: string)
    | ProductField(product: string)
    | BillField(billNo: string)
    | QuantityField(quantity: Numeric)
    | RateField(rate: Numeric)
    | PaidField(paid: Numeric)
    | RemarksField(remarks: string)

  /** The fields whose change recomputes the totals. */
  predicate Recomputes(e: StockField) {
    e.QuantityField? || e.RateField? || e.PaidField?
  }

  datatype Snack = Snack(message: string, severity: string)

  const DeniedMessage := "\U{274C} Permission Denied. Admin/Accountant only."

  class StockAddScreen {
    var form: StockForm
    var snack: Option<Snack>

    ghost predicate Valid()
      reads this
    {
      TotalsAgree(form)
    }

    constructor (today: string)
      ensures Valid() && form == Initial(today) && snack.None?
    {
      form := Initial(today);
      snack := None;
    }

    /** `handleChange`: the named field takes the new value; the totals are rewritten only
        for quantity, rate and paid amount, and otherwise stay as they were. */
    method HandleChange(e: StockField)
      requires Valid()
      modifies this`form
      ensures Valid()
      ensures e.DateField? ==> form == old(form).(date := e.date)
      ensures e.SupplierField? ==> form == old(form).(supplierName := e.name)
      ensures e.ProductField? ==> form == old(form).(productName := e.product)
      ensures e.BillField? ==> form == old(form).(billNo := e.billNo)
      ensures e.RemarksField? ==> form == old(form).(remarks := e.remarks)
      ensures e.QuantityField? ==> form.quantity == e.quantity && form.rate == old(form).rate && form.paidAmount == old(form).paidAmount
      ensures e.RateField? ==> form.rate == e.rate && form.quantity == old(form).quantity && form.paidAmount == old(form).paidAmount
      ensures e.PaidField? ==> form.paidAmount == e.paid && form.quantity == old(form).quantity && form.rate == old(form).rate
      ensures Recomputes(e) ==>
        form.(totalAmount := 0, balanceAmount := 0, quantity := Absent, rate := Absent, paidAmount := Absent)
        == old(form).(totalAmount := 0, balanceAmount := 0, quantity := Absent, rate := Absent, paidAmount := Absent)
      ensures !Recomputes(e) ==>
        form.totalAmount == old(form).totalAmount && form.balanceAmount == old(form).balanceAmount
    {
      var update := match e
        case DateField(d) => form.(date := d)
        case SupplierField(n) => form.(supplierName := n)
        case ProductField(p) => form.(productName := p)
        case BillField(b) => form.(billNo := b)
        case QuantityField(q) => form.(quantity := q)
        case RateField(r) => form.(rate := r)
        case PaidField(a) => form.(paidAmount := a)
        case RemarksField(s) => form.(remarks := s);
      if Recomputes(e) {
        var total := NumberOr0(update.quantity) * NumberOr0(update.rate);
        var balance := total - NumberOr0(update.paidAmount);
        update := update.(totalAmount := total);
        update := update.(balanceAmount := balance);
      }
      form := update;
    }

    /** `handleSubmit`: other roles get a denial and send nothing; a save clears the form
        and a failure keeps it. */
    method HandleSubmit(role: Option<string>, saved: bool, today: string) returns (request: Option<StockForm>)
      requires Valid()
      modifies this`form, this`snack
      ensures Valid()
      ensures !CanEditAccounts(role) ==>
        request.None? && form == old(form) && snack == Some(Snack(DeniedMessage, "error"))
      ensures CanEditAccounts(role) ==> request == Some(old(form))
      ensures CanEditAccounts(role) && saved ==> form == Initial(today) && snack.Some? && snack.value.severity == "success"
      ensures CanEditAccounts(role) && !saved ==> form == old(form) && snack.Some? && snack.value.severity == "error"
    {
      if !CanEditAccounts(role) {
        snack := Some(Snack(DeniedMessage, "error"));
        return None;
      }
      request := Some(form);
      if saved {
        snack := Some(Snack("\U{2705} Purchase saved successfully!", "success"));
        form := Initial(today);
      } else {
        snack := Some(Snack("\U{274C} Server error: Data save nahi hua", "error"));
      }
    }
  }
}
