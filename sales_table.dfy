/** The sales records table: search and product filter, the four sort orders, five
    rows per page, and inline editing guarded by the role. */
module SalesTable {
  import opened Common
  import opened Text
  import opened Roles
  import opened Dates

  datatype SaleRow = SaleRow(
    id: string,
    date: Date,
    billNo: Option<string>,
    customerName: Option<string>,
    productName: Option<string>,
    quantity: Numeric,
    rate: Numeric,
    amountReceived: Numeric,
    totalPrice: int,
    paymentDue: int,
    billDueDate: string)

  datatype SortOrder = DateNewest | DateOldest | BillAsc | BillDesc

  const RowsPerPage: nat := 5

  // ---------------------------------------------------------------------------
  // getProcessedList

  /** Customer name or bill number contains the search term, ignoring case, and the
      product filter is "All" or names the row's product. */
  predicate Keeps(s: SaleRow, search: string, product: string) {
    var term := Lower(search);
    (LowerContains(s.customerName, term) || LowerContains(s.billNo, term))
    && (product == "All" || s.productName == Some(product))
  }

  /** The sort key of each order, ascending; `billRank` is the numeric-aware collation
      of bill numbers. */
  function SortKey(order: SortOrder, billRank: string -> int): SaleRow -> int {
    match order
    case DateNewest => (s: SaleRow) => -Ordinal(s.date)
    case DateOldest => (s: SaleRow) => Ordinal(s.date)
    case BillAsc => (s: SaleRow) => billRank(if s.billNo.Some? then s.billNo.value else "")
    case BillDesc => (s: SaleRow) => -billRank(if s.billNo.Some? then s.billNo.value else "")
  }

  function Processed(list: seq<SaleRow>, search: string, product: string, order: SortOrder, billRank: string -> int): (r: seq<SaleRow>)
    ensures multiset(r) == multiset(Filter(list, s => Keeps(s, search, product)))
    ensures forall s :: s in r <==> s in list && Keeps(s, search, product)
    ensures SortedBy(r, SortKey(order, billRank))
  {
    var kept := Filter(list, s => Keeps(s, search, product));
    var r := SortByKey(kept, SortKey(order, billRank));
    assert forall s :: s in r <==> s in multiset(r);
    assert forall s :: s in kept <==> s in multiset(kept);
    r
  }

  /** Newest first really is newest first: no row is dated before a row below it. */
  lemma NewestFirstOrdersDates(list: seq<SaleRow>, search: string, product: string, billRank: string -> int)
    requires forall s :: s in list ==> InColumnRange(s.date)
    ensures var r := Processed(list, search, product, DateNewest, billRank);
      forall i, j :: 0 <= i < j < |r| ==> !Before(r[i].date, r[j].date)
  {
    var r := Processed(list, search, product, DateNewest, billRank);
    forall i, j | 0 <= i < j < |r| ensures !Before(r[i].date, r[j].date) {
      assert r[i] in r && r[j] in r;
      assert SortKey(DateNewest, billRank)(r[i]) <= SortKey(DateNewest, billRank)(r[j]);
      OrdinalOrder(r[i].date, r[j].date);
    }
  }

  /** Oldest first: no row is dated after a row below it. */
  lemma OldestFirstOrdersDates(list: seq<SaleRow>, search: string, product: string, billRank: string -> int)
    requires forall s :: s in list ==> InColumnRange(s.date)
    ensures var r := Processed(list, search, product, DateOldest, billRank);
      forall i, j :: 0 <= i < j < |r| ==> !Before(r[j].date, r[i].date)
  {
    var r := Processed(list, search, product, DateOldest, billRank);
    forall i, j | 0 <= i < j < |r| ensures !Before(r[j].date, r[i].date) {
      assert r[i] in r && r[j] in r;
      assert SortKey(DateOldest, billRank)(r[i]) <= SortKey(DateOldest, billRank)(r[j]);
      OrdinalOrder(r[j].date, r[i].date);
    }
  }

  /** An empty search under "All" hides only rows with neither a customer name nor a
      bill number. */
  lemma EmptySearchKeepsNamedRows(s: SaleRow)
    requires s.customerName.Some? || s.billNo.Some?
    ensures Keeps(s, "", "All")
  {
    assert Lower("") == "";
    if s.customerName.Some? { ContainsEmpty(Lower(s.customerName.value)); }
    else { ContainsEmpty(Lower(s.billNo.value)); }
  }

  // ---------------------------------------------------------------------------
  // Pagination

  function Min(a: int, b: int): int { if a <= b then a else b }

  /** `processedList.slice((p - 1) * 5, p * 5)` */
  function Page<T>(list: seq<T>, p: int): (r: seq<T>)
    requires p >= 1
    ensures |r| <= RowsPerPage
    ensures (p - 1) * RowsPerPage + |r| <= |list| || r == []
    ensures forall k :: 0 <= k < |r| ==> r[k] == list[(p - 1) * RowsPerPage + k]
    ensures |r| == Min(p * RowsPerPage, |list|) - Min((p - 1) * RowsPerPage, |list|)
  {
    list[Min((p - 1) * RowsPerPage, |list|)..Min(p * RowsPerPage, |list|)]
  }

  /** `Math.ceil(processedList.length / 5)` */
  function TotalPages(n: nat): (r: nat)
    ensures r * RowsPerPage >= n && (r == 0 || (r - 1) * RowsPerPage < n)
  {
    (n + RowsPerPage - 1) / RowsPerPage
  }

  /** Pages 1..k one after another. */
  function PagesUpTo<T>(list: seq<T>, k: nat): seq<T> {
    if k == 0 then [] else PagesUpTo(list, k - 1) + Page(list, k)
  }

  lemma {:induction false} PagesUpToPrefix<T>(list: seq<T>, k: nat)
    ensures PagesUpTo(list, k) == list[..Min(k * RowsPerPage, |list|)]
  {
    if k > 0 {
      PagesUpToPrefix(list, k - 1);
      var a, b := Min((k - 1) * RowsPerPage, |list|), Min(k * RowsPerPage, |list|);
      assert list[..a] + list[a..b] == list[..b];
    }
  }

  /** Paging through every page shows every row once, in order. */
  lemma PagesCoverList<T>(list: seq<T>)
    ensures PagesUpTo(list, TotalPages(|list|)) == list
  {
    PagesUpToPrefix(list, TotalPages(|list|));
  }

  /** "Page p of ...": an empty list still reads "of 1". */
  function ShownPageCount(n: nat): (r: nat)
    ensures r >= 1 && r >= TotalPages(n)
    ensures n > 0 ==> r == TotalPages(n)
  {
    if TotalPages(n) == 0 then 1 else TotalPages(n)
  }

  // ---------------------------------------------------------------------------
  // Inline editing

  /** The edit effect: total = quantity * rate, due = total - received, non-numbers as 0. */
  function Recalc(e: SaleRow): (r: SaleRow)
    ensures r == e.(totalPrice := r.totalPrice, paymentDue := r.paymentDue)
    ensures r.totalPrice == NumberOr0(e.quantity) * NumberOr0(e.rate)
    ensures r.paymentDue + NumberOr0(e.amountReceived) == r.totalPrice
  {
    var total := NumberOr0(e.quantity) * NumberOr0(e.rate);
    e.(totalPrice := total, paymentDue := total - NumberOr0(e.amountReceived))
  }

  predicate Consistent(e: SaleRow) {
    e.totalPrice == NumberOr0(e.quantity) * NumberOr0(e.rate)
    && e.paymentDue == e.totalPrice - NumberOr0(e.amountReceived)
  }

  /** Recalculating settles the totals: a second pass changes nothing. */
  lemma RecalcIdempotent(e: SaleRow)
    ensures Consistent(Recalc(e)) && Recalc(Recalc(e)) == Recalc(e)
  {
  }

  /** A field of the edit form. */
  datatype EditField =
    | DateField(date: Date)
    | BillField(billNo: string)
    | ProductField(product: string)
    | CustomerField(name: string)
    | QuantityField(quantity: Numeric)
    | ReceivedField(received: Numeric)
    | DueDateField(due: string)

  /** `handleEditChange`: set the named field. */
  function SetField(e: SaleRow, f: EditField): (r: SaleRow)
    ensures f.QuantityField? ==> r == e.(quantity := f.quantity)
    ensures f.ReceivedField? ==> r == e.(amountReceived := f.received)
    ensures !f.QuantityField? && !f.ReceivedField? ==>
      r.quantity == e.quantity && r.rate == e.rate && r.amountReceived == e.amountReceived
      && r.totalPrice == e.totalPrice && r.paymentDue == e.paymentDue
  {
    match f
    case DateField(d) => e.(date := d)
    case BillField(b) => e.(billNo := Some(b))
    case ProductField(p) => e.(productName := Some(p))
    case CustomerField(n) => e.(customerName := Some(n))
    case QuantityField(q) => e.(quantity := q)
    case ReceivedField(a) => e.(amountReceived := a)
    case DueDateField(d) => e.(billDueDate := d)
  }

  datatype Notice = Notice(title: string, message: string)

  const DeniedTitle := "Denied \U{274C}"

  datatype Save = Save(id: string, data: SaleRow)

  class SalesTableScreen {
    var salesList: seq<SaleRow>
    var search: string
    var selectedProduct: string
    var sortBy: SortOrder
    var currentPage: int
    var editId: Option<string>
    var editData: SaleRow
    var notice: Option<Notice>

    /** The page number never drops below 1, and while a row is being edited its totals
        follow its quantity, rate and received amount. */
    ghost predicate Valid()
      reads this
    {
      currentPage >= 1 && (editId.Some? && editId.value != "" ==> Consistent(editData))
    }

    constructor (blank: SaleRow)
      ensures Valid()
      ensures salesList == [] && search == "" && selectedProduct == "All" && sortBy == DateNewest
      ensures currentPage == 1 && editId.None? && notice.None?
    {
      salesList, search, selectedProduct, sortBy := [], "", "All", DateNewest;
      currentPage, editId, editData, notice := 1, None, blank, None;
    }

    /** The rows on screen. */
    function CurrentRows(billRank: string -> int): (r: seq<SaleRow>)
      requires Valid()
      reads this
      ensures |r| <= RowsPerPage
      ensures forall s :: s in r ==> s in salesList && Keeps(s, search, selectedProduct)
    {
      var all := Processed(salesList, search, selectedProduct, sortBy, billRank);
      var r := Page(all, currentPage);
      assert forall s :: s in r ==> s in all;
      r
    }

    /** The database listener delivers a new snapshot. */
    method Load(rows: seq<SaleRow>)
      modifies this`salesList
      ensures salesList == rows
    {
      salesList := rows;
    }

    method SetSearch(s: string)
      requires Valid()
      modifies this`search, this`currentPage
      ensures Valid() && search == s && currentPage == 1
    {
      search := s;
      currentPage := 1;
    }

    method SetProduct(p: string)
      requires Valid()
      modifies this`selectedProduct, this`currentPage
      ensures Valid() && selectedProduct == p && currentPage == 1
    {
      selectedProduct := p;
      currentPage := 1;
    }

    /** Changing the sort order keeps the page. */
    method SetSort(o: SortOrder)
      modifies this`sortBy
      ensures sortBy == o
    {
      sortBy := o;
    }

    /** The Prev button, disabled on page 1. */
    method PrevPage()
      requires Valid()
      modifies this`currentPage
      ensures Valid()
      ensures old(currentPage) == 1 ==> currentPage == 1
      ensures old(currentPage) != 1 ==> currentPage == old(currentPage) - 1
    {
      if currentPage != 1 {
        currentPage := currentPage - 1;
      }
    }

    /** The Next button, disabled once the page reaches the page count. */
    method NextPage(billRank: string -> int)
      requires Valid()
      modifies this`currentPage
      ensures Valid()
      ensures var n := |Processed(salesList, search, selectedProduct, sortBy, billRank)|;
        currentPage == if old(currentPage) >= TotalPages(n) then old(currentPage) else old(currentPage) + 1
    {
      var n := |Processed(salesList, search, selectedProduct, sortBy, billRank)|;
      if currentPage < TotalPages(n) {
        currentPage := currentPage + 1;
      }
    }

    /** `startEdit`: only Admin and Accountant; the edit copy is recalculated at once. */
    method StartEdit(role: Option<string>, sale: SaleRow)
      requires Valid()
      modifies this`editId, this`editData, this`notice
      ensures Valid()
      ensures !CanEditAccounts(role) ==>
        editId == old(editId) && editData == old(editData) && notice.Some? && notice.value.title == DeniedTitle
      ensures CanEditAccounts(role) ==> editId == Some(sale.id) && notice == old(notice)
      ensures CanEditAccounts(role) ==> editData == if sale.id != "" then Recalc(sale) else sale
    {
      if !CanEditAccounts(role) {
        notice := Some(Notice(DeniedTitle, "Aapke paas edit karne ki permission nahi hai."));
        return;
      }
      editId := Some(sale.id);
      editData := if sale.id != "" then Recalc(sale) else sale;
    }

    /** `handleEditChange`, followed by the effect when quantity or received changed. */
    method EditChange(f: EditField)
      requires Valid()
      modifies this`editData
      ensures Valid()
      ensures var changed := SetField(old(editData), f);
        editData == if (f.QuantityField? || f.ReceivedField?) && editId.Some? && editId.value != "" then Recalc(changed) else changed
    {
      var changed := SetField(editData, f);
      if (f.QuantityField? || f.ReceivedField?) && editId.Some? && editId.value != "" {
        editData := Recalc(changed);
      } else {
        editData := changed;
      }
    }

    method CancelEdit()
      requires Valid()
      modifies this`editId
      ensures Valid() && editId.None?
    {
      editId := None;
    }

    /** `handleSave`: silent for other roles; otherwise writes the edit copy under the
        edited id and, once saved, leaves edit mode. */
    method HandleSave(role: Option<string>, saved: bool) returns (request: Option<Save>)
      requires Valid()
      modifies this`editId, this`notice
      ensures Valid()
      ensures !CanEditAccounts(role) ==> request.None? && editId == old(editId) && notice == old(notice)
      ensures CanEditAccounts(role) ==>
        request == Some(Save(if old(editId).Some? then old(editId).value else "", editData))
      ensures CanEditAccounts(role) && saved ==> editId.None?
      ensures CanEditAccounts(role) && !saved ==> editId == old(editId)
      ensures CanEditAccounts(role) ==> notice.Some?
    {
      if !CanEditAccounts(role) {
        return None;
      }
      request := Some(Save(if editId.Some? then editId.value else "", editData));
      if saved {
        notice := Some(Notice("Updated! \U{2705}", "Record update kar diya gaya hai."));
        editId := None;
      } else {
        notice := Some(Notice("Error \U{274C}", "Update fail ho gaya."));
      }
    }

    /** `handleDelete`: a denial for other roles, otherwise a removal request. The row
        leaves the table with the next snapshot. */
    method HandleDelete(role: Option<string>, id: string, deleted: bool) returns (request: Option<string>)
      modifies this`notice
      ensures !CanEditAccounts(role) ==> request.None? && notice.Some? && notice.value.title == DeniedTitle
      ensures CanEditAccounts(role) ==> request == Some(id)
      ensures CanEditAccounts(role) ==>
        notice.Some? && notice.value.title == if deleted then "Deleted \U{1F5D1}\U{FE0F}" else "Error \U{274C}"
    {
      if !CanEditAccounts(role) {
        notice := Some(Notice(DeniedTitle, "Aapke paas delete karne ki permission nahi hai."));
        return None;
      }
      request := Some(id);
      if deleted {
        notice := Some(Notice("Deleted \U{1F5D1}\U{FE0F}", "Record successfully delete ho gaya."));
      } else {
        notice := Some(Notice("Error \U{274C}", "Delete nahi ho paya."));
      }
    }
  }
}
