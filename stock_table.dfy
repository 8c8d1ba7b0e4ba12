/** The stock inventory table backed by the server: status badges, the item search,
    and edits and deletions mirrored in the local list. */
module StockTable {
  import opened Common
  import opened Text
  import opened Roles

  /** A stock row; the id is a database id here and a realtime-database key on the live
      screen. A quantity typed into the edit box stays text (`Digits`). */
  datatype StockItem<Id> = StockItem(id: Id, item: Option<string>, quantity: Numeric, unit: string, updatedDate: string, remarks: string)

  /** The status badge: nothing left, under 50, or enough. */
  function Status(quantity: int): (r: string)
    ensures r == "Out of Stock" <==> quantity <= 0
    ensures r == "Low" <==> 0 < quantity < 50
    ensures r == "Available" <==> quantity >= 50
  {
    if quantity <= 0 then "Out of Stock" else if quantity < 50 then "Low" else "Available"
  }

  /** `s.item?.toLowerCase().includes(searchTerm.toLowerCase())` */
  predicate ItemMatches<Id>(s: StockItem<Id>, searchTerm: string) {
    LowerContains(s.item, Lower(searchTerm))
  }

  function Filtered<Id(!new)>(stocks: seq<StockItem<Id>>, searchTerm: string): (r: seq<StockItem<Id>>)
    ensures forall s :: s in r <==> s in stocks && ItemMatches(s, searchTerm)
    ensures IsSubseq(r, stocks)
  {
    Filter(stocks, s => ItemMatches(s, searchTerm))
  }

  /** Searching is case-insensitive: the term's letter case does not matter. */
  lemma SearchIgnoresCase<Id(!new)>(stocks: seq<StockItem<Id>>, term: string)
    ensures Filtered(stocks, Upper(term)) == Filtered(stocks, term)
  {
    LowerUpper(term);
    FilterCongruent(stocks, s => ItemMatches(s, Upper(term)), s => ItemMatches(s, term));
  }

  /** `stocks.map(s => s.id === editId ? editData : s)` */
  function ReplaceById<Id(==)>(stocks: seq<StockItem<Id>>, id: Id, data: StockItem<Id>): (r: seq<StockItem<Id>>)
    ensures |r| == |stocks|
    ensures forall i :: 0 <= i < |r| ==> r[i] == if stocks[i].id == id then data else stocks[i]
  {
    if stocks == [] then []
    else [if stocks[0].id == id then data else stocks[0]] + ReplaceById(stocks[1..], id, data)
  }

  /** `stocks.filter(s => s.id !== id)` */
  function RemoveById<Id(==,!new)>(stocks: seq<StockItem<Id>>, id: Id): (r: seq<StockItem<Id>>)
    ensures forall s :: s in r <==> s in stocks && s.id != id
    ensures IsSubseq(r, stocks)
  {
    Filter(stocks, (s: StockItem<Id>) => s.id != id)
  }

  /** Deleting twice is deleting once. */
  lemma RemoveByIdIdempotent<Id(!new)>(stocks: seq<StockItem<Id>>, id: Id)
    ensures RemoveById(RemoveById(stocks, id), id) == RemoveById(stocks, id)
  {
    FilterAll(RemoveById(stocks, id), (s: StockItem<Id>) => s.id != id);
  }

  /** The update sent for an edit: the quantity as a number, dated today. */
  function Payload<Id>(editData: StockItem<Id>, today: string): (r: StockItem<Id>)
    ensures r.quantity == Num(NumberOr0(editData.quantity)) && r.updatedDate == today
    ensures r.(quantity := editData.quantity, updatedDate := editData.updatedDate) == editData
  {
    editData.(quantity := Num(NumberOr0(editData.quantity)), updatedDate := today)
  }

  datatype EditField = ItemField(item: string) | QuantityField(quantity: Numeric) | UnitField(unit: string) | RemarksField(remarks: string)

  function SetField<Id>(s: StockItem<Id>, f: EditField): StockItem<Id> {
    match f
    case ItemField(x) => s.(item := Some(x))
    case QuantityField(q) => s.(quantity := q)
    case UnitField(u) => s.(unit := u)
    case RemarksField(x) => s.(remarks := x)
  }

  datatype Notice = Notice(title: string, message: string)

  /** How a request ended: done, or failed with the error's message. */
  datatype Outcome = Done | Failed(message: string)

  const DeniedTitle := "Denied \U{274C}"

  datatype Put = Put(id: Option<int>, body: StockItem<int>)

  class StockTableScreen {
    var stocks: seq<StockItem<int>>
    var searchTerm: string
    var editId: Option<int>
    var editData: StockItem<int>
    var notice: Option<Notice>

    constructor (blank: StockItem<int>)
      ensures stocks == [] && searchTerm == "" && editId.None? && notice.None?
    {
      stocks, searchTerm, editId, editData, notice := [], "", None, blank, None;
    }

    /** The fetch: the `stock` list of the answer, or empty; a failed request leaves the
        list as it was. */
    method Load(response: Option<Option<seq<StockItem<int>>>>)
      modifies this`stocks
      ensures response.None? ==> stocks == old(stocks)
      ensures response.Some? ==> stocks == if response.value.Some? then response.value.value else []
    {
      if response.Some? {
        stocks := if response.value.Some? then response.value.value else [];
      }
    }

    method StartEdit(role: Option<string>, stock: StockItem<int>)
      modifies this`editId, this`editData, this`notice
      ensures !CanEditAccounts(role) ==> editId == old(editId) && editData == old(editData) && notice.Some? && notice.value.title == DeniedTitle
      ensures CanEditAccounts(role) ==> editId == Some(stock.id) && editData == stock && notice == old(notice)
    {
      if !CanEditAccounts(role) {
        notice := Some(Notice(DeniedTitle, "Aapke paas edit karne ki permission nahi hai."));
        return;
      }
      editId := Some(stock.id);
      editData := stock;
    }

    method EditChange(f: EditField)
      modifies this`editData
      ensures editData == SetField(old(editData), f)
    {
      editData := SetField(editData, f);
    }

    /** `handleSave`: silent for other roles. A successful put leaves edit mode and puts
        the edit copy, with its quantity still as typed, in place of the edited row. */
    method HandleSave(role: Option<string>, outcome: Outcome, today: string) returns (request: Option<Put>)
      modifies this`stocks, this`editId, this`notice
      ensures !CanEditAccounts(role) ==> request.None? && stocks == old(stocks) && editId == old(editId) && notice == old(notice)
      ensures CanEditAccounts(role) ==> request == Some(Put(old(editId), Payload(editData, today)))
      ensures CanEditAccounts(role) && outcome.Done? ==> editId.None?
      ensures CanEditAccounts(role) && outcome.Done? ==>
        stocks == if old(editId).Some? then ReplaceById(old(stocks), old(editId).value, editData) else old(stocks)
      ensures CanEditAccounts(role) && outcome.Failed? ==> stocks == old(stocks) && editId == old(editId)
      ensures CanEditAccounts(role) ==> notice.Some?
    {
      if !CanEditAccounts(role) {
        return None;
      }
      request := Some(Put(editId, Payload(editData, today)));
      if outcome.Done? {
        notice := Some(Notice("Updated \U{2705}", "Stock updated successfully."));
        var id := editId;
        editId := None;
        if id.Some? {
          stocks := ReplaceById(stocks, id.value, editData);
        }
      } else {
        notice := Some(Notice("Error \U{274C}", "Update failed: " + outcome.message));
      }
    }

    /** `handleDelete`: a denial for other roles; a successful delete drops every row with
        that id. */
    method HandleDelete(role: Option<string>, id: int, outcome: Outcome) returns (request: Option<int>)
      modifies this`stocks, this`notice
      ensures !CanEditAccounts(role) ==> request.None? && stocks == old(stocks) && notice.Some? && notice.value.title == DeniedTitle
      ensures CanEditAccounts(role) ==> request == Some(id)
      ensures CanEditAccounts(role) && outcome.Done? ==> stocks == RemoveById(old(stocks), id)
      ensures CanEditAccounts(role) && outcome.Failed? ==> stocks == old(stocks)
    {
      if !CanEditAccounts(role) {
        notice := Some(Notice(DeniedTitle, "Permission nahi hai."));
        return None;
      }
      request := Some(id);
      if outcome.Done? {
        notice := Some(Notice("Deleted \U{1F5D1}\U{FE0F}", "Stock item removed."));
        stocks := RemoveById(stocks, id);
      } else {
        notice := Some(Notice("Error \U{274C}", "Delete fail: " + outcome.message));
      }
    }
  }
}
