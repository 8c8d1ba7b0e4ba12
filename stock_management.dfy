/** The live stock screen fed by the realtime database: the newest entry first, the
    status badges, the confirm-before-delete flow and the edit save. */
module StockManagement {
  import opened Common
  import opened Text
  import opened Roles
  import StockTable

  type Item = StockTable.StockItem<string>

  /** The badge of this screen, which says "Low Stock" where the server-backed table
      says "Low". */
  function Status(quantity: int): (r: string)
    ensures r == "Out of Stock" <==> quantity <= 0
    ensures r == "Low Stock" <==> 0 < quantity < 50
    ensures r == "Available" <==> quantity >= 50
  {
    if quantity <= 0 then "Out of Stock" else if quantity < 50 then "Low Stock" else "Available"
  }

  /** Both screens draw the same line between the three states. */
  lemma StatusAgreesWithTable(quantity: int)
    ensures (Status(quantity) == "Low Stock") == (StockTable.Status(quantity) == "Low")
    ensures Status(quantity) == "Low Stock" || Status(quantity) == StockTable.Status(quantity)
  {
  }

  /** A snapshot entry: a key and the stored fields, to which the key is added as `id`. */
  datatype Entry = Entry(key: string, item: Option<string>, quantity: Numeric, unit: string, updatedDate: string, remarks: string)

  function WithId(e: Entry): Item {
    StockTable.StockItem(e.key, e.item, e.quantity, e.unit, e.updatedDate, e.remarks)
  }

  /** `Object.keys(data).map(...).reverse()`: the last key first. */
  function Loaded(entries: seq<Entry>): (r: seq<Item>)
    ensures |r| == |entries|
    ensures forall i :: 0 <= i < |r| ==> r[i] == WithId(entries[|entries| - 1 - i])
  {
    Reverse(seq(|entries|, i requires 0 <= i < |entries| => WithId(entries[i])))
  }

  // ---------------------------------------------------------------------------
  // The alert dialog

  datatype AlertKind = Info | Confirm

  /** `alertData`; `onConfirm` holds the id its callback would delete. */
  datatype AlertData = AlertData(show: bool, title: string, message: string, kind: AlertKind, onConfirm: Option<string>)

  datatype Button = Cancel | Ok

  /** What pressing a dialog button does. */
  datatype Press = Close | RunConfirm(id: string)

  /** The dialog component as the screen uses it: it receives only `onClose`, and both of
      its buttons call it. */
  function PressAsWritten(a: AlertData, b: Button): (r: Press)
    ensures r == Close
  {
    Close
  }

  /** An authorised delete request stores its callback, yet neither button can run it. */
  lemma ConfirmedDeleteNeverRuns(id: string)
    ensures var a := AlertData(true, "Confirm Delete \U{1F5D1}\U{FE0F}", "Kya aap sach mein is item ko delete karna chahte hain?", Confirm, Some(id));
      a.onConfirm == Some(id) && PressAsWritten(a, Ok) != RunConfirm(id) && PressAsWritten(a, Cancel) != RunConfirm(id)
  {
  }

  /** The evidently intended dialog: OK on a confirm runs its callback, anything else closes. */
  function PressIntended(a: AlertData, b: Button): (r: Press)
    ensures r.RunConfirm? <==> b == Ok && a.kind == Confirm && a.onConfirm.Some?
    ensures r.RunConfirm? ==> r.id == a.onConfirm.value
  {
    if b == Ok && a.kind == Confirm && a.onConfirm.Some? then RunConfirm(a.onConfirm.value) else Close
  }

  const DeniedTitle := "Denied \U{274C}"

  /** `showAlert(title, message)`: a plain notice, which drops any stored callback. */
  function Notice(title: string, message: string): (r: AlertData)
    ensures r.show && r.onConfirm.None?
  {
    AlertData(true, title, message, Info, None)
  }

  datatype EditField = ItemField(item: string) | QuantityField(quantity: Numeric) | UnitField(unit: string) | RemarksField(remarks: string)

  class StockScreen {
    var stocks: seq<Item>
    var searchTerm: string
    var editId: Option<string>
    var editData: Item
    var alert: AlertData

    constructor (blank: Item)
      ensures stocks == [] && searchTerm == "" && editId.None? && !alert.show && alert.onConfirm.None?
    {
      stocks, searchTerm, editId, editData := [], "", None, blank;
      alert := AlertData(false, "", "", Info, None);
    }

    /** The listener: an empty snapshot empties the list. */
    method Load(snapshot: seq<Entry>)
      modifies this`stocks
      ensures stocks == Loaded(snapshot)
    {
      stocks := Loaded(snapshot);
    }

    function Visible(): (r: seq<Item>)
      reads this
      ensures forall s :: s in r <==> s in stocks && StockTable.ItemMatches(s, searchTerm)
    {
      StockTable.Filtered(stocks, searchTerm)
    }

    /** `handleDelete`: a denial for other roles; otherwise only a confirm dialog whose
        callback deletes that id. Nothing is deleted yet. */
    method HandleDelete(role: Option<string>, id: string)
      modifies this`alert
      ensures !CanEditAccounts(role) ==> alert == Notice(DeniedTitle, "Aapke paas delete karne ki permission nahi hai.")
      ensures CanEditAccounts(role) ==> alert.show && alert.kind == Confirm && alert.onConfirm == Some(id)
    {
      if !CanEditAccounts(role) {
        alert := Notice(DeniedTitle, "Aapke paas delete karne ki permission nahi hai.");
        return;
      }
      alert := AlertData(true, "Confirm Delete \U{1F5D1}\U{FE0F}", "Kya aap sach mein is item ko delete karna chahte hain?", Confirm, Some(id));
    }

    /** A dialog button as the screen wires it: the dialog closes and nothing is removed. */
    method PressAlertAsWritten(b: Button) returns (request: Option<string>)
      modifies this`alert
      ensures request.None?
      ensures alert == old(alert).(show := false)
    {
      alert := alert.(show := false);
      request := None;
    }

    /** A dialog button with OK wired to the confirm callback: `executeDelete(id)` sends the
        removal and reports its outcome; the row leaves with the next snapshot. */
    method PressAlert(b: Button, outcome: StockTable.Outcome) returns (request: Option<string>)
      modifies this`alert
      ensures var p := PressIntended(old(alert), b);
        request == (if p.RunConfirm? then Some(p.id) else None)
      ensures request.None? ==> alert == old(alert).(show := false)
      ensures request.Some? ==>
        alert == if outcome.Done? then Notice("Deleted!", "Item successfully delete ho gaya.") else Notice("Error \U{274C}", outcome.message)
    {
      match PressIntended(alert, b) {
        case Close =>
          alert := alert.(show := false);
          request := None;
        case RunConfirm(id) =>
          request := Some(id);
          alert := if outcome.Done? then Notice("Deleted!", "Item successfully delete ho gaya.") else Notice("Error \U{274C}", outcome.message);
      }
    }

    method StartEdit(role: Option<string>, stock: Item)
      modifies this`editId, this`editData, this`alert
      ensures !CanEditAccounts(role) ==> editId == old(editId) && editData == old(editData)
      ensures !CanEditAccounts(role) ==> alert == Notice(DeniedTitle, "Aapke paas edit karne ki permission nahi hai.")
      ensures CanEditAccounts(role) ==> editId == Some(stock.id) && editData == stock && alert == old(alert)
    {
      if !CanEditAccounts(role) {
        alert := Notice(DeniedTitle, "Aapke paas edit karne ki permission nahi hai.");
        return;
      }
      editId := Some(stock.id);
      editData := stock;
    }

    method EditChange(f: EditField)
      modifies this`editData
      ensures f.ItemField? ==> editData == old(editData).(item := Some(f.item))
      ensures f.QuantityField? ==> editData == old(editData).(quantity := f.quantity)
      ensures f.UnitField? ==> editData == old(editData).(unit := f.unit)
      ensures f.RemarksField? ==> editData == old(editData).(remarks := f.remarks)
    {
      editData := match f
        case ItemField(x) => editData.(item := Some(x))
        case QuantityField(q) => editData.(quantity := q)
        case UnitField(u) => editData.(unit := u)
        case RemarksField(x) => editData.(remarks := x);
    }

    /** `handleSave`: silent for other roles; otherwise the edit copy is written with a
        numeric quantity and today's date, and a success leaves edit mode. */
    method HandleSave(role: Option<string>, outcome: StockTable.Outcome, today: string)
      returns (request: Option<(Option<string>, Item)>)
      modifies this`editId, this`alert
      ensures !CanEditAccounts(role) ==> request.None? && editId == old(editId) && alert == old(alert)
      ensures CanEditAccounts(role) ==> request == Some((old(editId), StockTable.Payload(editData, today)))
      ensures CanEditAccounts(role) && outcome.Done? ==> editId.None?
      ensures CanEditAccounts(role) && outcome.Failed? ==> editId == old(editId)
      ensures CanEditAccounts(role) ==> alert.show && alert.onConfirm.None?
    {
      if !CanEditAccounts(role) {
        return None;
      }
      request := Some((editId, StockTable.Payload(editData, today)));
      if outcome.Done? {
        editId := None;
        alert := Notice("Success \U{2705}", "Stock database mein update ho gaya hai!");
      } else {
        alert := Notice("Update Failed \U{274C}", outcome.message);
      }
    }
  }
}
