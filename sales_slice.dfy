/** The `sales` slice of the Redux store: the list of sales kept in the browser. */
module SalesSlice {
  import opened Common

  /** A sale in the store: its id and the rest of the payload. */
  datatype Sale<D> = Sale(id: int, data: D)

  /** The position of the first sale with that id, as `findIndex` finds it. */
  function FirstIndex<D>(list: seq<Sale<D>>, id: int): (r: Option<nat>)
    ensures r.Some? ==> r.value < |list| && list[r.value].id == id
    ensures r.Some? ==> forall j :: 0 <= j < r.value ==> list[j].id != id
    ensures r.None? ==> forall j :: 0 <= j < |list| ==> list[j].id != id
  {
    if list == [] then None
    else if list[0].id == id then Some(0)
    else
      var r := FirstIndex(list[1..], id);
      if r.Some? then Some(r.value + 1) else None
  }

  /** The list after `updateSale(payload)`. */
  function Updated<D>(list: seq<Sale<D>>, payload: Sale<D>): seq<Sale<D>> {
    var i := FirstIndex(list, payload.id);
    if i.Some? then list[i.value := payload] else list
  }

  /** Updating with a sale already in place changes nothing, and a second identical
      update changes nothing more. */
  lemma UpdateIdempotent<D>(list: seq<Sale<D>>, payload: Sale<D>)
    ensures Updated(Updated(list, payload), payload) == Updated(list, payload)
  {
    var i := FirstIndex(list, payload.id);
    if i.Some? {
      var l2 := list[i.value := payload];
      assert forall j :: 0 <= j < i.value ==> l2[j] == list[j];
      assert FirstIndex(l2, payload.id) == i by {
        FirstIndexUnique(l2, payload.id, i.value);
      }
    }
  }

  /** The first index is fixed by the element there and the absence of the id before it. */
  lemma {:induction false} FirstIndexUnique<D>(list: seq<Sale<D>>, id: int, i: nat)
    requires i < |list| && list[i].id == id
    requires forall j :: 0 <= j < i ==> list[j].id != id
    ensures FirstIndex(list, id) == Some(i)
  {
    if i > 0 {
      FirstIndexUnique(list[1..], id, i - 1);
    }
  }

  /** `deleteSale(id)` followed by `updateSale` with that id leaves the list as the delete
      left it: the deleted sale is gone for good. */
  lemma UpdateAfterDelete<D(!new)>(list: seq<Sale<D>>, payload: Sale<D>)
    ensures var rest := Filter(list, (s: Sale<D>) => s.id != payload.id);
      Updated(rest, payload) == rest
  {
    var rest := Filter(list, (s: Sale<D>) => s.id != payload.id);
    assert forall j :: 0 <= j < |rest| ==> rest[j] in rest;
  }

  class SalesSlice<D(!new)> {
    var list: seq<Sale<D>>
    var loading: bool
    var error: Option<string>

    constructor ()
      ensures list == [] && !loading && error.None?
    {
      list, loading, error := [], false, None;
    }

    /** `addSale`: the payload is appended with the clock reading as its id. */
    method AddSale(data: D, now: int)
      modifies this`list
      ensures list == old(list) + [Sale(now, data)]
    {
      list := list + [Sale(now, data)];
    }

    /** `updateSale`: the first sale with the payload's id is replaced; without one the
        list is unchanged. */
    method UpdateSale(payload: Sale<D>)
      modifies this`list
      ensures list == Updated(old(list), payload)
      ensures |list| == |old(list)|
    {
      var i := 0;
      while i < |list| && list[i].id != payload.id
        invariant 0 <= i <= |list|
        invariant FirstIndex(list[..i], payload.id).None?
        invariant list == old(list)
      {
        assert list[..i + 1] == list[..i] + [list[i]];
        FirstIndexAppend(list[..i], list[i], payload.id);
        i := i + 1;
      }
      if i < |list| {
        assert forall j :: 0 <= j < i ==> list[..i][j] == list[j];
        FirstIndexUnique(list, payload.id, i);
        list := list[i := payload];
      } else {
        assert list[..i] == list;
      }
    }

    /** `deleteSale`: every sale with that id is removed; the rest keep their order. */
    method DeleteSale(id: int)
      modifies this`list
      ensures list == Filter(old(list), (s: Sale<D>) => s.id != id)
      ensures forall s :: s in list <==> s in old(list) && s.id != id
    {
      list := Filter(list, (s: Sale<D>) => s.id != id);
    }

    /** `clearSales` */
    method ClearSales()
      modifies this`list
      ensures list == []
    {
      list := [];
    }
  }

  lemma {:induction false} FirstIndexAppend<D>(list: seq<Sale<D>>, x: Sale<D>, id: int)
    requires FirstIndex(list, id).None? && x.id != id
    ensures FirstIndex(list + [x], id).None?
  {
    if list != [] {
      assert (list + [x])[1..] == list[1..] + [x];
      FirstIndexAppend(list[1..], x, id);
    }
  }
}
