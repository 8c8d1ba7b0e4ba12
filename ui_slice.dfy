/** The `ui` slice of the Redux store. */
module UiSlice {

  class Ui {
    var sidebarOpen: bool
    var loading: bool

    constructor ()
      ensures !sidebarOpen && !loading
    {
      sidebarOpen, loading := false, false;
    }

    method OpenSidebar()
      modifies this`sidebarOpen
      ensures sidebarOpen
    {
      sidebarOpen := true;
    }

    method CloseSidebar()
      modifies this`sidebarOpen
      ensures !sidebarOpen
    {
      sidebarOpen := false;
    }

    method SetLoading(value: bool)
      modifies this`loading
      ensures loading == value
    {
      loading := value;
    }
  }
}
