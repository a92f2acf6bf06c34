/** The application mode store (frontend/src/store/useModeStore.ts): the
    Prototype/BA switch and its copy under the `app_mode` key of the
    browser's local storage.  Whether a window exists is fixed when the
    store is created; the stored value is a field of the store. */
module ModeStore {
  import opened Wrappers

  datatype AppMode = Prototype | Ba

  /** The string a mode is stored as. */
  function ModeName(m: AppMode): string {
    match m
    case Prototype => "prototype"
    case Ba => "ba"
  }

  /** `loadMode`: BA only when a window exists and the stored value is
      exactly "ba"; anything else, including nothing stored, is Prototype. */
  function LoadMode(hasWindow: bool, saved: Option<string>): (r: AppMode)
    ensures r == Ba <==> hasWindow && saved == Some("ba")
  {
    if !hasWindow then Prototype
    else if saved == Some("ba") then Ba
    else Prototype
  }

  /** The mode `toggleMode` switches to. */
  function Toggled(m: AppMode): (r: AppMode)
    ensures r != m
  {
    if m == Prototype then Ba else Prototype
  }

  /** Two toggles restore the original mode. */
  lemma ToggleTwice(m: AppMode)
    ensures Toggled(Toggled(m)) == m
  {
  }

  /** A saved mode loads back as itself. */
  lemma SavedModeReloads(m: AppMode)
    ensures LoadMode(true, Some(ModeName(m))) == m
  {
  }

  class ModeStoreState {
    const hasWindow: bool
    var mode: AppMode
    /** `localStorage.getItem('app_mode')` */
    var stored: Option<string>

    /** With a window, reloading the page restores the current mode. */
    predicate Persisted()
      reads this
    {
      hasWindow ==> LoadMode(hasWindow, stored) == mode
    }

    constructor(hasWindow: bool, saved: Option<string>)
      ensures this.hasWindow == hasWindow && stored == saved
      ensures mode == LoadMode(hasWindow, saved)
      ensures Persisted()
    {
      this.hasWindow := hasWindow;
      stored := saved;
      mode := LoadMode(hasWindow, saved);
    }

    /** `saveMode`: writes only when a window exists. */
    method Save(m: AppMode)
      modifies this
      ensures mode == old(mode)
      ensures stored == if hasWindow then Some(ModeName(m)) else old(stored)
    {
      if hasWindow {
        stored := Some(ModeName(m));
      }
    }

    /** `setMode` */
    method SetMode(m: AppMode)
      modifies this
      ensures mode == m
      ensures stored == if hasWindow then Some(ModeName(m)) else old(stored)
      ensures Persisted()
    {
      Save(m);
      mode := m;
      SavedModeReloads(m);
    }

    /** `toggleMode` */
    method ToggleMode()
      modifies this
      ensures mode == Toggled(old(mode))
      ensures stored == if hasWindow then Some(ModeName(mode)) else old(stored)
      ensures Persisted()
    {
      var newMode := if mode == Prototype then Ba else Prototype;
      Save(newMode);
      mode := newMode;
      SavedModeReloads(newMode);
    }
  }
}
