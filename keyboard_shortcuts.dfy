/** The global keyboard shortcuts (frontend/src/hooks/useKeyboardShortcuts.ts):
    which of undo and redo a key press runs.  The platform string and the
    history's `canUndo`/`canRedo` answers are parameters. */
module KeyboardShortcuts {
  import opened Strings

  /** A `keydown` event's key and modifier flags. */
  datatype KeyEvent = KeyEvent(key: string, ctrlKey: bool, metaKey: bool, shiftKey: bool)

  /** What the handler does; `preventDefault` is called exactly when it
      runs an undo or a redo. */
  datatype Action = NoAction | UndoAction | RedoAction

  /** `navigator.platform.toUpperCase().indexOf('MAC') >= 0` */
  predicate IsMac(platform: string) {
    Contains(ToUpper(platform), "MAC")
  }

  /** Cmd on a Mac, Ctrl elsewhere. */
  predicate ModifierHeld(ev: KeyEvent, mac: bool) {
    if mac then ev.metaKey else ev.ctrlKey
  }

  /** `handleKeyDown` */
  function HandleKeyDown(ev: KeyEvent, platform: string, canUndo: bool, canRedo: bool): Action {
    var mac := IsMac(platform);
    if !ModifierHeld(ev, mac) then NoAction
    else if ev.key == "z" && !ev.shiftKey then (if canUndo then UndoAction else NoAction)
    else if (ev.key == "y" && !mac) || (ev.key == "z" && ev.shiftKey && mac) then (if canRedo then RedoAction else NoAction)
    else NoAction
  }

  /** Undo runs exactly for the platform modifier with a plain 'z' while
      there is something to undo. */
  lemma UndoExactly(ev: KeyEvent, platform: string, canUndo: bool, canRedo: bool)
    ensures HandleKeyDown(ev, platform, canUndo, canRedo) == UndoAction
      <==> ModifierHeld(ev, IsMac(platform)) && ev.key == "z" && !ev.shiftKey && canUndo
  {
  }

  /** Redo runs exactly for the platform modifier with 'y' off a Mac or
      shift+'z' on a Mac, while there is something to redo. */
  lemma RedoExactly(ev: KeyEvent, platform: string, canUndo: bool, canRedo: bool)
    ensures HandleKeyDown(ev, platform, canUndo, canRedo) == RedoAction
      <==> ModifierHeld(ev, IsMac(platform)) && canRedo
           && ((ev.key == "y" && !IsMac(platform)) || (ev.key == "z" && ev.shiftKey && IsMac(platform)))
  {
  }

  /** Without the platform modifier nothing happens, whatever else is held;
      in particular Ctrl on a Mac and Cmd elsewhere do nothing. */
  lemma ModifierRequired(ev: KeyEvent, platform: string, canUndo: bool, canRedo: bool)
    requires !ModifierHeld(ev, IsMac(platform))
    ensures HandleKeyDown(ev, platform, canUndo, canRedo) == NoAction
  {
  }

  /** Off a Mac, Ctrl+Shift+Z neither undoes nor redoes. */
  lemma ShiftZOffMac(ev: KeyEvent, platform: string, canUndo: bool, canRedo: bool)
    requires !IsMac(platform) && ev.key == "z" && ev.shiftKey
    ensures HandleKeyDown(ev, platform, canUndo, canRedo) == NoAction
  {
  }

  /** The platform test ignores letter case: "MacIntel" and "macintel" are
      both a Mac. */
  lemma MacTestIgnoresCase(platform: string)
    ensures IsMac(ToLower(platform)) <==> IsMac(platform)
  {
    UpperOfLower(platform);
  }
}
