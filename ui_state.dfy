/** The UI flags of the dashboard: whether the sidebar is open and whether
    dark mode is on, with the three handlers that change them. */
module UIStates {

  /** The two flags as a value, the abstract state of a `UIState`. */
  datatype Flags = Flags(sidebarOpen: bool, darkMode: bool)

  function Toggled(f: Flags): (g: Flags)
    ensures g.sidebarOpen != f.sidebarOpen && g.darkMode == f.darkMode
  {
    f.(sidebarOpen := !f.sidebarOpen)
  }

  function Closed(f: Flags): (g: Flags)
    ensures !g.sidebarOpen && g.darkMode == f.darkMode
  {
    f.(sidebarOpen := false)
  }

  function WithDarkMode(f: Flags, value: bool): (g: Flags)
    ensures g.darkMode == value && g.sidebarOpen == f.sidebarOpen
  {
    f.(darkMode := value)
  }

  /** Toggling the sidebar twice restores the original flags. */
  lemma ToggleTwice(f: Flags)
    ensures Toggled(Toggled(f)) == f
  {
  }

  /** Closing is idempotent, and closing after toggling or closing gives the
      same flags. */
  lemma CloseIdempotent(f: Flags)
    ensures Closed(Closed(f)) == Closed(f)
    ensures Closed(Toggled(f)) == Closed(f)
  {
  }

  /** Setting dark mode to a value is idempotent and only the last value
      set counts; it never negates. */
  lemma DarkModeIdempotent(f: Flags, v: bool, w: bool)
    ensures WithDarkMode(WithDarkMode(f, v), v) == WithDarkMode(f, v)
    ensures WithDarkMode(WithDarkMode(f, v), w) == WithDarkMode(f, w)
    ensures WithDarkMode(f, f.darkMode) == f
  {
  }

  /** The sidebar handlers and the dark mode handler touch different flags,
      so they commute. */
  lemma HandlersCommute(f: Flags, v: bool)
    ensures WithDarkMode(Toggled(f), v) == Toggled(WithDarkMode(f, v))
    ensures WithDarkMode(Closed(f), v) == Closed(WithDarkMode(f, v))
  {
  }

  class UIState {
    var sidebarOpen: bool
    var darkMode: bool

    function State(): Flags
      reads this
    {
      Flags(sidebarOpen, darkMode)
    }

    constructor ()
      ensures State() == Flags(false, false)
    {
      sidebarOpen := false;
      darkMode := false;
    }

    method ToggleSidebar()
      modifies this
      ensures State() == Toggled(old(State()))
    {
      sidebarOpen := !sidebarOpen;
    }

    method CloseSidebar()
      modifies this
      ensures State() == Closed(old(State()))
    {
      sidebarOpen := false;
    }

    /** Sets dark mode to `value`. The colour-mode switch the handler also
        returns to the browser is presentation and is not part of this model. */
    method ToggleDarkMode(value: bool)
      modifies this
      ensures State() == WithDarkMode(old(State()), value)
    {
      darkMode := value;
    }
  }
}
