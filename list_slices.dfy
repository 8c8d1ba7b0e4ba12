/** The `employee`, `purchase` and `stock` slices of the Redux store. The three are the
    same reducer over different rows, so one class models each of them. */
module ListSlices {
  import opened Common

  class FetchSlice<T> {
    var list: seq<T>
    var loading: bool
    var error: Option<string>

    constructor ()
      ensures list == [] && !loading && error.None?
    {
      list, loading, error := [], false, None;
    }

    /** `clearEmployee`, `clearPurchase`, `clearStock`: the list only. */
    method Clear()
      modifies this`list
      ensures list == []
    {
      list := [];
    }

    /** `fetch….pending`: loading, with the list and error kept. */
    method FetchPending()
      modifies this`loading
      ensures loading
    {
      loading := true;
    }

    /** `fetch….fulfilled`: the payload becomes the list; an earlier error stays. */
    method FetchFulfilled(payload: seq<T>)
      modifies this`loading, this`list
      ensures !loading && list == payload
    {
      loading := false;
      list := payload;
    }

    /** `fetch….rejected`: the error message is kept, the list is not touched. */
    method FetchRejected(message: Option<string>)
      modifies this`loading, this`error
      ensures !loading && error == message
    {
      loading := false;
      error := message;
    }

    /** `add….fulfilled`: the saved row is appended; loading is not touched. */
    method AddFulfilled(row: T)
      modifies this`list
      ensures list == old(list) + [row]
    {
      list := list + [row];
    }
  }
}
