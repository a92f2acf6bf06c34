/** The history timeline (frontend/src/components/HistoryTimeline.tsx): the undo
    stack listed newest first, the search filter over it, a click that jumps to
    a point by repeated undo or redo, the command icons and the relative
    timestamps.  The current time is a parameter. */
module Timeline {
  import opened Strings
  import opened Editor
  import opened Commands
  import opened History

  // ---------------------------------------------------------------------------
  // Icons and relative times

  /** `getCommandIcon`: one icon per command type. */
  function CommandIcon(t: CommandType): (icon: string)
    ensures icon != ""
  {
    match t
    case VisualEdit => "🎨"
    case SurgicalEdit => "✂️"
    case AgentGeneration => "🤖"
    case ComponentAdd => "➕"
    case ComponentDelete => "🗑️"
  }

  /** Different command types show different icons. */
  lemma IconsDistinct(a: CommandType, b: CommandType)
    requires a != b
    ensures CommandIcon(a) != CommandIcon(b)
  {
  }

  /** "<n> <unit> ago", with an "s" only for more than one. */
  function Ago(n: int, unit: string): string {
    IntToString(n) + " " + unit + (if n > 1 then "s" else "") + " ago"
  }

  /** `formatTimestamp`: whole seconds, minutes, hours and days, each rounded
      down from the one before. */
  function FormatTimestamp(now: int, timestamp: int): string {
    var diff := now - timestamp;
    var seconds := diff / 1000;
    var minutes := seconds / 60;
    var hours := minutes / 60;
    var days := hours / 24;
    if seconds < 60 then "just now"
    else if minutes < 60 then Ago(minutes, "minute")
    else if hours < 24 then Ago(hours, "hour")
    else Ago(days, "day")
  }

  /** The time since `timestamp` picks the unit by plain millisecond bounds:
      under a minute is "just now", then minutes below an hour, hours below a
      day, and days. */
  lemma TimestampUnits(now: int, timestamp: int)
    ensures var diff := now - timestamp;
      FormatTimestamp(now, timestamp) ==
        if diff < 60000 then "just now"
        else if diff < 3600000 then Ago(diff / 60000, "minute")
        else if diff < 86400000 then Ago(diff / 3600000, "hour")
        else Ago(diff / 86400000, "day")
  {
    var diff := now - timestamp;
    var seconds := diff / 1000;
    var minutes := seconds / 60;
    var hours := minutes / 60;
    assert minutes == diff / 60000;
    assert hours == diff / 3600000;
    assert hours / 24 == diff / 86400000;
  }

  // ---------------------------------------------------------------------------
  // The listed commands and the search filter

  /** `[...undoStack].reverse()`: newest first. */
  function Reversed(s: seq<Command>): (r: seq<Command>)
    ensures |r| == |s| && forall i :: 0 <= i < |s| ==> r[i] == s[|s| - 1 - i]
  {
    if s == [] then [] else [s[|s| - 1]] + Reversed(s[..|s| - 1])
  }

  /** A command matches when its description or type name contains the
      query, ignoring case. */
  predicate Matches(c: Command, query: string) {
    Contains(ToLower(c.description), ToLower(query)) || Contains(ToLower(TypeName(TypeOf(c))), ToLower(query))
  }

  /** The commands that match, in order. */
  function Filter(commands: seq<Command>, query: string): (r: seq<Command>)
    ensures |r| <= |commands|
  {
    if commands == [] then []
    else (if Matches(commands[0], query) then [commands[0]] else []) + Filter(commands[1..], query)
  }

  /** A command is kept exactly when it is listed and matches. */
  lemma {:induction false} FilterKeepsMatches(commands: seq<Command>, query: string, c: Command)
    ensures c in Filter(commands, query) <==> c in commands && Matches(c, query)
  {
    if commands != [] {
      FilterKeepsMatches(commands[1..], query, c);
      assert commands == [commands[0]] + commands[1..];
    }
  }

  /** The listed commands: an empty query keeps them all. */
  function Listed(undoStack: seq<Command>, query: string): (r: seq<Command>)
    ensures query == "" ==> r == Reversed(undoStack)
  {
    if query != "" then Filter(Reversed(undoStack), query) else Reversed(undoStack)
  }

  // ---------------------------------------------------------------------------
  // Jumping to a point

  /** The stacks and the editor state together. */
  datatype Point = Point(stacks: Stacks, editor: Snapshot)

  /** One `undo` of the store, on the stacks and on the editor. */
  function StepUndo(p: Point): Point {
    if |p.stacks.undo| == 0 then p
    else Point(AfterUndo(p.stacks), Undone(p.stacks.undo[|p.stacks.undo| - 1], p.editor))
  }

  /** One `redo` of the store, on the stacks and on the editor. */
  function StepRedo(p: Point): Point {
    if |p.stacks.redo| == 0 then p
    else Point(AfterRedo(p.stacks), Executed(p.stacks.redo[|p.stacks.redo| - 1], p.editor))
  }

  function Undos(p: Point, n: nat): Point {
    if n == 0 then p else StepUndo(Undos(p, n - 1))
  }

  function Redos(p: Point, n: nat): Point {
    if n == 0 then p else StepRedo(Redos(p, n - 1))
  }

  /** Where `handleJumpToPoint(targetIndex)` leads from `p`. */
  function Jump(p: Point, targetIndex: int): Point {
    var steps := (|p.stacks.undo| - 1) - targetIndex;
    if steps > 0 then Undos(p, steps)
    else if steps < 0 then Redos(p, -steps)
    else p
  }

  /** `n` undos from a stack holding at least `n` commands leave its oldest
      entries and move `n` commands to the redo stack. */
  lemma {:induction false} UndosShrinkStack(p: Point, n: nat)
    requires n <= |p.stacks.undo|
    ensures Undos(p, n).stacks.undo == p.stacks.undo[..|p.stacks.undo| - n]
    ensures |Undos(p, n).stacks.redo| == |p.stacks.redo| + n
  {
    if n > 0 {
      UndosShrinkStack(p, n - 1);
      var q := Undos(p, n - 1);
      assert q.stacks.undo[..|q.stacks.undo| - 1] == p.stacks.undo[..|p.stacks.undo| - n];
    }
  }

  /** With no query, clicking the `i`-th listed command (0 is the newest)
      targets its own undo-stack position, and the jump is exactly `i` undos,
      after which the clicked command is the newest one still applied; a click
      never redoes. */
  lemma ClickUndoesNewer(p: Point, i: nat)
    requires i < |p.stacks.undo|
    ensures Listed(p.stacks.undo, "")[i] == p.stacks.undo[|p.stacks.undo| - 1 - i]
    ensures Jump(p, |p.stacks.undo| - 1 - i) == Undos(p, i)
    ensures Jump(p, |p.stacks.undo| - 1 - i).stacks.undo == p.stacks.undo[..|p.stacks.undo| - i]
    ensures var u := Jump(p, |p.stacks.undo| - 1 - i).stacks.undo; u[|u| - 1] == Listed(p.stacks.undo, "")[i]
  {
    UndosShrinkStack(p, i);
  }

  /** `handleJumpToPoint`: the number of steps is fixed from the stack as the
      click found it; then that many `undo` calls, or that many `redo` calls
      for a negative count. */
  method JumpToPoint(h: HistoryStore, e: EditorStore, targetIndex: int)
    requires h.Valid()
    modifies h, e
    ensures h.Valid()
    ensures Point(h.StacksOf(), SnapshotOf(e)) == Jump(old(Point(h.StacksOf(), SnapshotOf(e))), targetIndex)
  {
    ghost var start := Point(h.StacksOf(), SnapshotOf(e));
    var currentIndex := |h.undoStack| - 1;
    var stepsToMove := currentIndex - targetIndex;
    if stepsToMove > 0 {
      var i := 0;
      while i < stepsToMove
        invariant 0 <= i <= stepsToMove
        invariant h.Valid()
        invariant Point(h.StacksOf(), SnapshotOf(e)) == Undos(start, i)
      {
        h.Undo(e);
        i := i + 1;
      }
    } else if stepsToMove < 0 {
      var i := 0;
      while i < -stepsToMove
        invariant 0 <= i <= -stepsToMove
        invariant h.Valid()
        invariant Point(h.StacksOf(), SnapshotOf(e)) == Redos(start, i)
      {
        h.Redo(e);
        i := i + 1;
      }
    }
  }
}
