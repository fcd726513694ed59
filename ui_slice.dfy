/**
 * The UI slice (src/store/slices/uiSlice.ts): the colour theme and the sidebar flag, with the
 * theme mirrored into storage under "theme" and into the `dark` class of the document root.
 */
module UiSlice {
  import opened Options
  import opened TodosApi

  /**
   * The theme read at start-up: whatever is stored, unchecked, unless nothing or the empty
   * string is stored, in which case "light".
   */
  function InitialTheme(stored: Option<string>): (theme: string)
    ensures theme != ""
    ensures theme == "light" || stored == Some(theme)
    ensures stored.Some? && stored.value != "light" && stored.value != "" ==> theme == stored.value
  {
    if TruthyStr(stored) then stored.value else "light"
  }

  /** The theme `toggleTheme` moves to: "dark" from "light", "light" from anything else. */
  function Toggled(theme: string): (next: string)
    ensures next == "light" || next == "dark"
    ensures next == "dark" <==> theme == "light"
  {
    if theme == "light" then "dark" else "light"
  }

  /** Toggling twice restores "light" and "dark". */
  lemma ToggleTwice(theme: string)
    requires theme == "light" || theme == "dark"
    ensures Toggled(Toggled(theme)) == theme
  {
  }

  /** Any other theme, such as an unchecked stored value, becomes "dark" after two toggles. */
  lemma ToggleTwiceNormalises(theme: string)
    requires theme != "light"
    ensures Toggled(Toggled(theme)) == "dark"
  {
  }

  class UiSlice {
    var theme: string
    var sidebarOpen: bool
    /** `localStorage.getItem("theme")`. */
    var storedTheme: Option<string>
    /** Whether the document root carries the `dark` class. */
    var darkClass: bool

    /** The document follows the theme: `dark` is on exactly for the theme "dark". */
    predicate DomSynced()
      reads this
    {
      darkClass <==> theme == "dark"
    }

    /** `initialState`: the initial theme, applied to the document at once; sidebar closed. */
    constructor(stored: Option<string>)
      ensures theme == InitialTheme(stored) && !sidebarOpen
      ensures storedTheme == stored
      ensures DomSynced()
    {
      theme := InitialTheme(stored);
      sidebarOpen := false;
      storedTheme := stored;
      darkClass := InitialTheme(stored) == "dark";
    }

    /** `setTheme`: adopt, store and apply the given theme; the sidebar is untouched. */
    method SetTheme(t: string)
      modifies this
      ensures theme == t && storedTheme == Some(t)
      ensures DomSynced()
      ensures sidebarOpen == old(sidebarOpen)
    {
      theme := t;
      storedTheme := Some(t);
      darkClass := t == "dark";
    }

    /** `toggleTheme`: switch to the toggled theme, store and apply it; the sidebar is untouched. */
    method ToggleTheme()
      modifies this
      ensures theme == Toggled(old(theme)) && storedTheme == Some(theme)
      ensures DomSynced()
      ensures sidebarOpen == old(sidebarOpen)
    {
      var next := if theme == "light" then "dark" else "light";
      theme := next;
      storedTheme := Some(next);
      darkClass := next == "dark";
    }

    /** `setSidebarOpen`: only the sidebar flag changes. */
    method SetSidebarOpen(open: bool)
      modifies this
      ensures sidebarOpen == open
      ensures theme == old(theme) && storedTheme == old(storedTheme) && darkClass == old(darkClass)
    {
      sidebarOpen := open;
    }

    /** `toggleSidebar`: only the sidebar flag changes, to its negation. */
    method ToggleSidebar()
      modifies this
      ensures sidebarOpen == !old(sidebarOpen)
      ensures theme == old(theme) && storedTheme == old(storedTheme) && darkClass == old(darkClass)
    {
      sidebarOpen := !sidebarOpen;
    }
  }

  /**
   * The theme survives a reload: after a toggle, a fresh slice built from storage starts
   * with the toggled theme.
   */
  method ReloadAfterToggle(s: UiSlice) returns (restored: UiSlice)
    modifies s
    ensures restored.theme == s.theme == Toggled(old(s.theme))
  {
    s.ToggleTheme();
    restored := new UiSlice(s.storedTheme);
  }
}
