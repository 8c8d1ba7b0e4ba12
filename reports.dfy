/** The report centre: the rows of one category, the filters applied on "Show Data",
    the grand total, and the list of parties to choose from. */
module Reports {
  import opened Common
  import opened Text

  datatype Category = Sales | Purchases | Stock

  /** A report row with the columns the screen reads; dates are text such as
      "2024-05-01" or "2024-05-01T10:00:00.000Z". */
  datatype ReportRow = ReportRow(
    createdAt: Option<string>,
    date: Option<string>,
    productName: Option<string>,
    name: Option<string>,
    customerName: Option<string>,
    supplierName: Option<string>,
    totalAmount: Numeric,
    amount: Numeric)

  /** `a || b` on optional strings. */
  function OrElse(a: Option<string>, b: Option<string>): Option<string> {
    if Present(a) then a else b
  }

  /** `(item.created_at || item.date || "").split('T')[0]` */
  function ItemDate(r: ReportRow): (d: string)
    ensures forall k :: 0 <= k < |d| ==> d[k] != 'T'
  {
    var s := OrElse(r.createdAt, r.date);
    PrefixBefore(if Present(s) then s.value else "", 'T')
  }

  /** `startDate <= itemDate <= endDate`, compared as text. */
  predicate InRange(r: ReportRow, startDate: string, endDate: string) {
    !LexLess(ItemDate(r), startDate) && !LexLess(endDate, ItemDate(r))
  }

  predicate ProductIs(r: ReportRow, product: string) {
    OrElse(r.productName, r.name) == Some(product)
  }

  predicate PartyIs(r: ReportRow, person: string) {
    r.customerName == Some(person) || r.supplierName == Some(person)
  }

  /** The chosen filters. */
  datatype Filters = Filters(category: Category, product: string, person: string, startDate: string, endDate: string)

  predicate DateActive(f: Filters) { f.startDate != "" && f.endDate != "" }
  predicate ProductActive(f: Filters) { f.product != "All" }
  predicate PartyActive(f: Filters) { f.category != Stock && f.person != "All" }

  /** A sales or purchases report needs a party, a product or a start date first. */
  predicate Refused(f: Filters) {
    f.category != Stock && f.person == "All" && f.product == "All" && f.startDate == ""
  }

  /** The row passes every filter that is switched on. */
  predicate PassesAll(r: ReportRow, f: Filters) {
    (DateActive(f) ==> InRange(r, f.startDate, f.endDate))
    && (ProductActive(f) ==> ProductIs(r, f.product))
    && (PartyActive(f) ==> PartyIs(r, f.person))
  }

  function DateTest(f: Filters): ReportRow -> bool {
    r => InRange(r, f.startDate, f.endDate)
  }

  function ProductTest(f: Filters): ReportRow -> bool {
    r => ProductIs(r, f.product)
  }

  function PartyTest(f: Filters): ReportRow -> bool {
    r => PartyIs(r, f.person)
  }

  function AllTest(f: Filters): ReportRow -> bool {
    r => PassesAll(r, f)
  }

  /** The three filters applied one after another, as `handleFilter` does. */
  function Stepwise(raw: seq<ReportRow>, f: Filters): seq<ReportRow> {
    var byDate := if DateActive(f) then Filter(raw, DateTest(f)) else raw;
    var byProduct := if ProductActive(f) then Filter(byDate, ProductTest(f)) else byDate;
    if PartyActive(f) then Filter(byProduct, PartyTest(f)) else byProduct
  }

  function DateGate(f: Filters): ReportRow -> bool {
    r => !DateActive(f) || InRange(r, f.startDate, f.endDate)
  }

  function ProductGate(f: Filters): ReportRow -> bool {
    r => !ProductActive(f) || ProductIs(r, f.product)
  }

  function PartyGate(f: Filters): ReportRow -> bool {
    r => !PartyActive(f) || PartyIs(r, f.person)
  }

  /** A filter that may be switched off is a filter whose test lets everything through
      when it is off. */
  lemma Gate(s: seq<ReportRow>, active: bool, p: ReportRow -> bool, g: ReportRow -> bool)
    requires forall x :: g(x) == (!active || p(x))
    ensures (if active then Filter(s, p) else s) == Filter(s, g)
  {
    if active {
      FilterCongruent(s, p, g);
    } else {
      FilterAll(s, g);
    }
  }

  /** Applying the filters in turn keeps exactly the rows that pass all of them, in the
      order of the raw data. */
  lemma StepwiseIsOneFilter(raw: seq<ReportRow>, f: Filters)
    ensures Stepwise(raw, f) == Filter(raw, AllTest(f))
  {
    var g1, g2, g3 := DateGate(f), ProductGate(f), PartyGate(f);
    var byDate := Filter(raw, g1);
    Gate(raw, DateActive(f), DateTest(f), g1);
    var byProduct := Filter(byDate, g2);
    Gate(byDate, ProductActive(f), ProductTest(f), g2);
    Gate(byProduct, PartyActive(f), PartyTest(f), g3);
    var g12: ReportRow -> bool := x => g1(x) && g2(x);
    FilterCompose(raw, g1, g2, g12);
    FilterCompose(raw, g12, g3, AllTest(f));
  }

  /** The result is part of the raw data, in order, and holds a row exactly when it passes
      every active filter. */
  lemma FilterResult(raw: seq<ReportRow>, f: Filters)
    ensures IsSubseq(Stepwise(raw, f), raw)
    ensures forall r :: r in Stepwise(raw, f) <==> r in raw && PassesAll(r, f)
  {
    StepwiseIsOneFilter(raw, f);
  }

  /** A stock report ignores the party, even one left selected. */
  lemma StockIgnoresParty(raw: seq<ReportRow>, f: Filters)
    requires f.category == Stock
    ensures Stepwise(raw, f) == Stepwise(raw, f.(person := "All"))
  {
  }

  /** `Number(item.total_amount || item.amount || 0)` */
  function RowAmount(r: ReportRow): int {
    if Truthy(r.totalAmount) then NumberOr0(r.totalAmount)
    else if Truthy(r.amount) then NumberOr0(r.amount)
    else 0
  }

  /** `calculateTotal` */
  function GrandTotal(rows: seq<ReportRow>): int {
    SumOf(rows, RowAmount)
  }

  /** Without negative amounts the grand total is not negative. */
  lemma GrandTotalNonNegative(rows: seq<ReportRow>)
    requires forall r :: r in rows ==> RowAmount(r) >= 0
    ensures GrandTotal(rows) >= 0
  {
    SumNonNegative(rows, RowAmount);
  }

  /** The column that names the party of each category. */
  function PartyOf(c: Category, r: ReportRow): Option<string> {
    if c == Sales then r.customerName else r.supplierName
  }

  /** `[...new Set(names)].filter(Boolean)`, empty for stock. */
  function PersonList(c: Category, data: seq<ReportRow>): seq<Option<string>> {
    if c == Stock then [] else Filter(Distinct(Parties(c, data)), Present)
  }

  /** The party column of each row, in the order of the data. */
  function Parties(c: Category, data: seq<ReportRow>): seq<Option<string>> {
    seq(|data|, i requires 0 <= i < |data| => PartyOf(c, data[i]))
  }

  /** The list has no repeats and holds exactly the truthy party names of the data, and
      nothing for stock. */
  lemma PersonListMembers(c: Category, data: seq<ReportRow>)
    ensures NoDups(PersonList(c, data))
    ensures forall n :: n in PersonList(c, data) <==>
      c != Stock && Present(n) && exists i :: 0 <= i < |data| && PartyOf(c, data[i]) == n
  {
    if c != Stock {
      var names := Parties(c, data);
      assert forall i :: 0 <= i < |data| ==> names[i] == PartyOf(c, data[i]);
      FilterNoDups(Distinct(names), Present);
    }
  }

  /** The party list follows the data: each name sits where it first appears. */
  lemma PersonListInOrder(c: Category, data: seq<ReportRow>)
    ensures IsSubseq(PersonList(c, data), Parties(c, data))
  {
    if c != Stock {
      var names := Parties(c, data);
      DistinctInOrder(names);
      SubseqTransitive(PersonList(c, data), Distinct(names), names);
    }
  }

  lemma {:induction false} FilterNoDups<T(!new)>(s: seq<T>, p: T -> bool)
    requires NoDups(s)
    ensures NoDups(Filter(s, p))
  {
    if s != [] {
      FilterNoDups(s[1..], p);
      assert s[0] !in s[1..];
    }
  }

  datatype Snack = Snack(message: string, severity: string)

  /** The snackbar shown when the report fetch fails. */
  const FetchFailed := Snack("Database connection failed!", "error")

  class ReportScreen {
    var category: Category
    var product: string
    var person: string
    var startDate: string
    var endDate: string
    var rawData: seq<ReportRow>
    var filteredData: seq<ReportRow>
    var personList: seq<Option<string>>
    var snack: Option<Snack>

    constructor ()
      ensures category == Sales && product == "All" && person == "All" && startDate == "" && endDate == ""
      ensures rawData == [] && filteredData == [] && personList == [] && snack.None?
    {
      category, product, person, startDate, endDate := Sales, "All", "All", "", "";
      rawData, filteredData, personList, snack := [], [], [], None;
    }

    function Current(): Filters
      reads this
    {
      Filters(category, product, person, startDate, endDate)
    }

    /** The fetch for `category`: `None` is a failed request. A success replaces the data,
        clears the result and derives the party list; a failure empties the data only.
        Either way the product and party choices go back to "All". */
    method FetchData(response: Option<seq<ReportRow>>)
      modifies this`rawData, this`filteredData, this`personList, this`snack, this`product, this`person
      ensures product == "All" && person == "All"
      ensures if response.Some? then
          rawData == response.value && filteredData == [] &&
          personList == PersonList(category, response.value) && snack == old(snack)
        else
          rawData == [] && filteredData == old(filteredData) &&
          personList == old(personList) && snack == Some(FetchFailed)
    {
      if response.Some? {
        var names := PersonList(category, response.value);
        rawData, filteredData, personList, product, person := response.value, [], names, "All", "All";
        assert names == PersonList(category, response.value);
      } else {
        rawData, snack, product, person := [], Some(FetchFailed), "All", "All";
      }
    }

    /** `handleFilter`: refused without a filter for sales and purchases; otherwise the
        date range, product and party filters are applied in turn. */
    method HandleFilter()
      modifies this`filteredData, this`snack
      ensures Refused(old(Current())) ==>
        filteredData == old(filteredData) && snack == Some(Snack("Please apply at least one filter!", "warning"))
      ensures !Refused(old(Current())) ==> filteredData == Stepwise(rawData, Current())
      ensures !Refused(old(Current())) ==>
        snack == Some(Snack(IntString(|filteredData|) + " records found.", "success"))
    {
      var f := Current();
      if Refused(f) {
        snack := Some(Snack("Please apply at least one filter!", "warning"));
        return;
      }
      var temp := rawData;
      if DateActive(f) {
        temp := Filter(temp, DateTest(f));
      }
      if ProductActive(f) {
        temp := Filter(temp, ProductTest(f));
      }
      if PartyActive(f) {
        temp := Filter(temp, PartyTest(f));
      }
      filteredData := temp;
      snack := Some(Snack(IntString(|temp|) + " records found.", "success"));
    }
  }
}
