/** Company expenses: the list with its grand total, and the entry form guarded by the
    role and by a required amount. */
module ExpenseManager {
  import opened Common
  import opened Roles

  datatype ExpenseRow = ExpenseRow(category: string, amount: Numeric, description: string, expenseDate: string)

  /** `data.reduce((sum, exp) => sum + Number(exp.amount), 0)` */
  function GrandTotal(rows: seq<ExpenseRow>): int {
    SumOf(rows, (e: ExpenseRow) => NumberOr0(e.amount))
  }

  /** A new expense adds its amount to the grand total. */
  lemma GrandTotalAppend(rows: seq<ExpenseRow>, e: ExpenseRow)
    ensures GrandTotal(rows + [e]) == GrandTotal(rows) + NumberOr0(e.amount)
  {
    SumAppend(rows, e, (e: ExpenseRow) => NumberOr0(e.amount));
  }

  /** The grand total of two lists together is the sum of their totals. */
  lemma GrandTotalConcat(a: seq<ExpenseRow>, b: seq<ExpenseRow>)
    ensures GrandTotal(a + b) == GrandTotal(a) + GrandTotal(b)
  {
    SumConcat(a, b, (e: ExpenseRow) => NumberOr0(e.amount));
  }

  datatype ExpenseForm = ExpenseForm(category: string, amount: string, detail: string)

  const EmptyForm := ExpenseForm("Khana-Pina", "", "")

  /** The body of the post, the amount still as typed. */
  datatype ExpensePost = ExpensePost(category: string, amount: string, description: string, expenseDate: string)

  /** The detail goes out as `description` and the chosen date as `expense_date`. */
  function Payload(f: ExpenseForm, selectedDate: string): (r: ExpensePost)
    ensures r.category == f.category && r.amount == f.amount
    ensures r.description == f.detail && r.expenseDate == selectedDate
  {
    ExpensePost(f.category, f.amount, f.detail, selectedDate)
  }

  datatype Snack = Snack(message: string, severity: string)

  datatype Outcome = Saved | NotSaved | Failed(message: string)

  class ExpenseScreen {
    var allExpenses: seq<ExpenseRow>
    var grandTotal: int
    var selectedDate: string
    var form: ExpenseForm
    var snack: Option<Snack>

    /** The total shown is the total of the list shown. */
    ghost predicate Valid()
      reads this
    {
      grandTotal == GrandTotal(allExpenses)
    }

    constructor (today: string)
      ensures Valid() && allExpenses == [] && selectedDate == today && form == EmptyForm && snack.None?
    {
      allExpenses, grandTotal, selectedDate, form, snack := [], 0, today, EmptyForm, None;
    }

    /** `fetchExpenses`: a failed request keeps the list and reports the failure. */
    method FetchExpenses(response: Option<seq<ExpenseRow>>)
      requires Valid()
      modifies this`allExpenses, this`grandTotal, this`snack
      ensures Valid()
      ensures response.Some? ==> allExpenses == response.value && snack == old(snack)
      ensures response.None? ==> allExpenses == old(allExpenses)
      ensures response.None? ==> snack == Some(Snack("Data fetch karne mein dikkat aayi", "error"))
    {
      if response.Some? {
        allExpenses := response.value;
        grandTotal := GrandTotal(response.value);
      } else {
        snack := Some(Snack("Data fetch karne mein dikkat aayi", "error"));
      }
    }

    /** A saved expense clears the form and reloads the list. */
    method AfterSave(reload: Option<seq<ExpenseRow>>)
      requires Valid()
      modifies this`form, this`snack, this`allExpenses, this`grandTotal
      ensures Valid() && form == EmptyForm
      ensures reload.Some? ==> allExpenses == reload.value
      ensures reload.None? ==> allExpenses == old(allExpenses)
    {
      form := EmptyForm;
      snack := Some(Snack("\U{2705} Expense Saved Successfully!", "success"));
      FetchExpenses(reload);
    }

    /** `handleSubmit`: refused for roles other than admin and accountant (in any letter
        case), then for an empty amount; a save clears the form and reloads the list. */
    method HandleSubmit(role: Option<string>, outcome: Outcome, reload: Option<seq<ExpenseRow>>)
      returns (request: Option<ExpensePost>)
      requires Valid()
      modifies this`form, this`snack, this`allExpenses, this`grandTotal
      ensures Valid()
      ensures !CanManageExpenses(role) ==> request.None? && form == old(form) && allExpenses == old(allExpenses)
      ensures !CanManageExpenses(role) ==>
        snack == Some(Snack("Unauthorized: Aapko expense add karne ki permission nahi hai.", "error"))
      ensures CanManageExpenses(role) && old(form).amount == "" ==>
        request.None? && form == old(form) && snack == Some(Snack("Please enter amount", "warning"))
      ensures CanManageExpenses(role) && old(form).amount != "" ==> request == Some(Payload(old(form), selectedDate))
      ensures request.Some? && outcome.Saved? ==> form == EmptyForm
      ensures request.Some? && outcome.Saved? && reload.Some? ==> allExpenses == reload.value
      ensures request.Some? && !outcome.Saved? ==> form == old(form) && allExpenses == old(allExpenses)
    {
      if !CanManageExpenses(role) {
        snack := Some(Snack("Unauthorized: Aapko expense add karne ki permission nahi hai.", "error"));
        return None;
      }
      if form.amount == "" {
        snack := Some(Snack("Please enter amount", "warning"));
        return None;
      }
      request := Some(Payload(form, selectedDate));
      match outcome {
        case Saved =>
          AfterSave(reload);
        case NotSaved =>
        case Failed(message) =>
          snack := Some(Snack("Error: " + message, "error"));
      }
    }
  }
}
