/** The history store (frontend/src/store/useHistoryStore.ts): an undo stack
    and a redo stack of commands, bounded together by `MaxStackSize`, with
    `currentIndex` naming the top of the undo stack.  Undo and redo move one
    command between the stacks and replay it on the editor. */
module History {
  import opened Editor
  import opened Commands

  const MaxStackSize := 50

  /** The two stacks; the top of each is its last element. */
  datatype Stacks = Stacks(undo: seq<Command>, redo: seq<Command>)

  /** At most `MaxStackSize` commands in both stacks together. */
  predicate Bounded(s: Stacks) {
    |s.undo| + |s.redo| <= MaxStackSize
  }

  /** `addCommand`: push onto the undo stack, drop its oldest entry when it
      outgrows the bound, and forget the redo stack. */
  function AfterAdd(s: Stacks, c: Command): (r: Stacks)
    ensures r.redo == [] && |r.undo| >= 1 && r.undo[|r.undo| - 1] == c
  {
    var pushed := s.undo + [c];
    Stacks(if |pushed| > MaxStackSize then pushed[1..] else pushed, [])
  }

  /** `undo`: the top of the undo stack moves to the top of the redo stack. */
  function AfterUndo(s: Stacks): Stacks {
    if |s.undo| == 0 then s
    else Stacks(s.undo[..|s.undo| - 1], s.redo + [s.undo[|s.undo| - 1]])
  }

  /** `redo`: the top of the redo stack moves back to the undo stack. */
  function AfterRedo(s: Stacks): Stacks {
    if |s.redo| == 0 then s
    else Stacks(s.undo + [s.redo[|s.redo| - 1]], s.redo[..|s.redo| - 1])
  }

  /** Every operation keeps the stacks within the bound; adding always leaves
      at most `MaxStackSize` commands, even from an unbounded state. */
  lemma OperationsStayBounded(s: Stacks, c: Command)
    ensures Bounded(AfterAdd(s, c)) || |s.undo| > MaxStackSize
    ensures |s.undo| <= MaxStackSize ==> Bounded(AfterAdd(s, c))
    ensures Bounded(s) ==> Bounded(AfterUndo(s)) && Bounded(AfterRedo(s))
  {
  }

  /** Only the oldest command is dropped, and only from a full undo stack. */
  lemma AddDropsOnlyOldest(s: Stacks, c: Command)
    requires |s.undo| <= MaxStackSize
    ensures |s.undo| < MaxStackSize ==> AfterAdd(s, c).undo == s.undo + [c]
    ensures |s.undo| == MaxStackSize ==> AfterAdd(s, c).undo == s.undo[1..] + [c]
  {
    if |s.undo| == MaxStackSize {
      assert (s.undo + [c])[1..] == s.undo[1..] + [c];
    }
  }

  /** Undo followed by redo gives back both stacks. */
  lemma UndoThenRedoRestores(s: Stacks)
    requires |s.undo| > 0
    ensures AfterRedo(AfterUndo(s)) == s
  {
    var u := AfterUndo(s);
    assert u.redo[|u.redo| - 1] == s.undo[|s.undo| - 1];
    assert u.redo[..|u.redo| - 1] == s.redo;
    assert u.undo + [s.undo[|s.undo| - 1]] == s.undo;
  }

  /** Redo followed by undo gives back both stacks. */
  lemma RedoThenUndoRestores(s: Stacks)
    requires |s.redo| > 0
    ensures AfterUndo(AfterRedo(s)) == s
  {
    var r := AfterRedo(s);
    assert r.undo[..|r.undo| - 1] == s.undo;
    assert r.redo + [s.redo[|s.redo| - 1]] == s.redo;
  }

  class HistoryStore {
    var undoStack: seq<Command>
    var redoStack: seq<Command>
    var currentIndex: int

    /** `currentIndex` is the top of the undo stack, and the stacks hold at
        most `MaxStackSize` commands together. */
    predicate Valid()
      reads this
    {
      currentIndex == |undoStack| - 1 && Bounded(Stacks(undoStack, redoStack))
    }

    function StacksOf(): Stacks
      reads this
    {
      Stacks(undoStack, redoStack)
    }

    constructor()
      ensures Valid() && undoStack == [] && redoStack == [] && currentIndex == -1
    {
      undoStack := [];
      redoStack := [];
      currentIndex := -1;
    }

    /** `addCommand` records a command that has already been applied; it does
        not touch the editor. */
    method AddCommand(c: Command)
      requires Valid()
      modifies this
      ensures Valid() && StacksOf() == AfterAdd(old(StacksOf()), c)
    {
      var newUndoStack := undoStack + [c];
      if |newUndoStack| > MaxStackSize {
        newUndoStack := newUndoStack[1..];
      }
      undoStack := newUndoStack;
      redoStack := [];
      currentIndex := |newUndoStack| - 1;
    }

    /** `undo`: nothing on an empty undo stack; otherwise the top command's
        `undo` runs on the editor and the command moves to the redo stack. */
    method Undo(e: EditorStore)
      requires Valid()
      modifies this, e
      ensures Valid() && StacksOf() == AfterUndo(old(StacksOf()))
      ensures old(|undoStack|) == 0 ==> SnapshotOf(e) == old(SnapshotOf(e))
      ensures old(|undoStack|) > 0 ==> SnapshotOf(e) == Undone(old(undoStack[|undoStack| - 1]), old(SnapshotOf(e)))
    {
      if |undoStack| == 0 {
        return;
      }
      var command := undoStack[|undoStack| - 1];
      Commands.Undo(command, e);
      var newUndoStack := undoStack[..|undoStack| - 1];
      var newRedoStack := redoStack + [command];
      undoStack := newUndoStack;
      redoStack := newRedoStack;
      currentIndex := |newUndoStack| - 1;
    }

    /** `redo`: nothing on an empty redo stack; otherwise the top command's
        `redo` runs on the editor and the command moves to the undo stack. */
    method Redo(e: EditorStore)
      requires Valid()
      modifies this, e
      ensures Valid() && StacksOf() == AfterRedo(old(StacksOf()))
      ensures old(|redoStack|) == 0 ==> SnapshotOf(e) == old(SnapshotOf(e))
      ensures old(|redoStack|) > 0 ==> SnapshotOf(e) == Executed(old(redoStack[|redoStack| - 1]), old(SnapshotOf(e)))
    {
      if |redoStack| == 0 {
        return;
      }
      var command := redoStack[|redoStack| - 1];
      Commands.Redo(command, e);
      var newRedoStack := redoStack[..|redoStack| - 1];
      var newUndoStack := undoStack + [command];
      undoStack := newUndoStack;
      redoStack := newRedoStack;
      currentIndex := |newUndoStack| - 1;
    }

    predicate CanUndo()
      reads this
    {
      |undoStack| > 0
    }

    predicate CanRedo()
      reads this
    {
      |redoStack| > 0
    }

    method ClearHistory()
      modifies this
      ensures Valid() && undoStack == [] && redoStack == [] && currentIndex == -1
    {
      undoStack := [];
      redoStack := [];
      currentIndex := -1;
    }

    /** `getHistory` */
    method GetHistory() returns (h: seq<Command>)
      ensures h == undoStack
    {
      h := undoStack;
    }
  }
}
