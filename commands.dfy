/** The undoable commands (frontend/src/lib/commands.ts, frontend/src/types/history.ts):
    snapshots of the editor state, the three snapshot commands, and the
    surgical edit command that rewrites one code part.  Ids and timestamps,
    drawn from `crypto.randomUUID()` and `Date.now()`, are parameters. */
module Commands {
  import opened Wrappers
  import opened Strings
  import opened Editor

  /** `CodeSnapshot` */
  datatype Snapshot = Snapshot(html: string, css: string, js: string, selectedElement: Option<string>, viewport: Viewport)

  /** `createSnapshot`: what the editor holds now. */
  function SnapshotOf(e: EditorStore): (s: Snapshot)
    reads e
    ensures s.html == e.code.html && s.css == e.code.css && s.js == e.code.js
    ensures s.selectedElement == e.selectedElement && s.viewport == e.viewport
  {
    Snapshot(e.code.html, e.code.css, e.code.js, e.selectedElement, e.viewport)
  }

  /** `applySnapshot`: the code, then the selection, then the viewport; a
      snapshot taken right after is the one applied. */
  method ApplySnapshot(e: EditorStore, s: Snapshot)
    modifies e
    ensures SnapshotOf(e) == s
  {
    e.SetCode(Code(s.html, s.css, s.js));
    e.SetSelectedElement(s.selectedElement);
    e.SetViewport(s.viewport);
  }

  datatype CommandType = VisualEdit | SurgicalEdit | AgentGeneration | ComponentAdd | ComponentDelete

  /** The enum's string value. */
  function TypeName(t: CommandType): string {
    match t
    case VisualEdit => "visual-edit"
    case SurgicalEdit => "surgical-edit"
    case AgentGeneration => "agent-generation"
    case ComponentAdd => "component-add"
    case ComponentDelete => "component-delete"
  }

  datatype FileType = HtmlFile | CssFile | JsFile

  /** A recorded command: one with before and after snapshots (visual edit,
      agent generation, component insertion), or a surgical edit of one
      code part. */
  datatype Command =
    | SnapshotCommand(id: string, kind: CommandType, timestamp: int, description: string, before: Snapshot, after: Snapshot)
    | SurgicalCommand(id: string, timestamp: int, description: string, fileType: FileType, beforeContent: string, afterContent: string)

  function TypeOf(c: Command): CommandType {
    if c.SnapshotCommand? then c.kind else SurgicalEdit
  }

  /** `VisualEditCommand` */
  function VisualEditCommand(id: string, timestamp: int, before: Snapshot, after: Snapshot, description: string): (c: Command)
    ensures TypeOf(c) == VisualEdit && c.description == description
    ensures forall s :: Executed(c, s) == after && Undone(c, s) == before
  {
    SnapshotCommand(id, VisualEdit, timestamp, description, before, after)
  }

  /** "Generated: " and the first 50 characters of the prompt, with "..."
      when it was cut. */
  function AgentDescription(prompt: string): (d: string)
  {
    "Generated: " + Take(prompt, 50) + (if |prompt| > 50 then "..." else "")
  }

  /** A prompt of at most 50 characters is quoted whole; a longer one is cut
      to 50 and marked, so a description is never longer than 64. */
  lemma AgentDescriptionShape(prompt: string)
    ensures |prompt| <= 50 ==> AgentDescription(prompt) == "Generated: " + prompt
    ensures |prompt| > 50 ==> AgentDescription(prompt) == "Generated: " + prompt[..50] + "..."
    ensures |AgentDescription(prompt)| <= 64
    ensures StartsWith(AgentDescription(prompt), "Generated: ")
  {
    var d := AgentDescription(prompt);
    assert d == "Generated: " + (Take(prompt, 50) + (if |prompt| > 50 then "..." else ""));
  }

  /** `AgentGenerationCommand` */
  function AgentGenerationCommand(id: string, timestamp: int, before: Snapshot, after: Snapshot, prompt: string): (c: Command)
    ensures TypeOf(c) == AgentGeneration && c.description == AgentDescription(prompt)
    ensures forall s :: Executed(c, s) == after && Undone(c, s) == before
  {
    SnapshotCommand(id, AgentGeneration, timestamp, AgentDescription(prompt), before, after)
  }

  /** `ComponentInsertionCommand` */
  function ComponentInsertionCommand(id: string, timestamp: int, before: Snapshot, after: Snapshot, componentName: string): (c: Command)
    ensures TypeOf(c) == ComponentAdd
    ensures c.description == "Added component: " + componentName
    ensures forall s :: Executed(c, s) == after && Undone(c, s) == before
  {
    SnapshotCommand(id, ComponentAdd, timestamp, "Added component: " + componentName, before, after)
  }

  /** `SurgicalEditCommand` */
  function SurgicalEditCommand(id: string, timestamp: int, fileType: FileType, beforeContent: string, afterContent: string, description: string)
    : (c: Command)
    ensures TypeOf(c) == SurgicalEdit && c.description == description
    ensures forall s :: Executed(c, s) == WithContent(s, fileType, afterContent)
    ensures forall s :: Undone(c, s) == WithContent(s, fileType, beforeContent)
  {
    SurgicalCommand(id, timestamp, description, fileType, beforeContent, afterContent)
  }

  /** The editor state after writing `content` into one code part. */
  function WithContent(s: Snapshot, fileType: FileType, content: string): (r: Snapshot)
    ensures r.selectedElement == s.selectedElement && r.viewport == s.viewport
    ensures r.html == (if fileType == HtmlFile then content else s.html)
    ensures r.css == (if fileType == CssFile then content else s.css)
    ensures r.js == (if fileType == JsFile then content else s.js)
  {
    match fileType
    case HtmlFile => s.(html := content)
    case CssFile => s.(css := content)
    case JsFile => s.(js := content)
  }

  /** The editor state after `execute` (and `redo`). */
  function Executed(c: Command, s: Snapshot): Snapshot {
    match c
    case SnapshotCommand(_, _, _, _, _, after) => after
    case SurgicalCommand(_, _, _, fileType, _, afterContent) => WithContent(s, fileType, afterContent)
  }

  /** The editor state after `undo`. */
  function Undone(c: Command, s: Snapshot): Snapshot {
    match c
    case SnapshotCommand(_, _, _, _, before, _) => before
    case SurgicalCommand(_, _, _, fileType, beforeContent, _) => WithContent(s, fileType, beforeContent)
  }

  /** The content a surgical edit's part holds in a snapshot. */
  function PartOf(s: Snapshot, fileType: FileType): string {
    match fileType
    case HtmlFile => s.html
    case CssFile => s.css
    case JsFile => s.js
  }

  /** Undoing and then redoing a command leaves the editor as executing it
      did: the after snapshot, or the after content in the edited part. */
  lemma UndoThenRedo(c: Command, s: Snapshot)
    ensures Executed(c, Undone(c, s)) == Executed(c, s)
    ensures c.SnapshotCommand? ==> Executed(c, Undone(c, s)) == c.after
  {
  }

  /** Executing and then undoing a command brings back the state it was
      recorded from: the before snapshot, or, for a surgical edit whose part
      held the before content, the whole earlier state. */
  lemma ExecuteThenUndo(c: Command, s: Snapshot)
    requires c.SnapshotCommand? ==> s == c.before
    requires c.SurgicalCommand? ==> PartOf(s, c.fileType) == c.beforeContent
    ensures Undone(c, Executed(c, s)) == s
  {
  }

  /** `execute` */
  method Execute(c: Command, e: EditorStore)
    modifies e
    ensures SnapshotOf(e) == Executed(c, old(SnapshotOf(e)))
  {
    match c
    case SnapshotCommand(_, _, _, _, _, after) => ApplySnapshot(e, after);
    case SurgicalCommand(_, _, _, fileType, _, afterContent) => UpdateCode(e, fileType, afterContent);
  }

  /** `undo` */
  method Undo(c: Command, e: EditorStore)
    modifies e
    ensures SnapshotOf(e) == Undone(c, old(SnapshotOf(e)))
  {
    match c
    case SnapshotCommand(_, _, _, _, before, _) => ApplySnapshot(e, before);
    case SurgicalCommand(_, _, _, fileType, beforeContent, _) => UpdateCode(e, fileType, beforeContent);
  }

  /** `redo` runs `execute` again. */
  method Redo(c: Command, e: EditorStore)
    modifies e
    ensures SnapshotOf(e) == Executed(c, old(SnapshotOf(e)))
  {
    Execute(c, e);
  }

  /** `updateCode` of the surgical command: the setter of its own part. */
  method UpdateCode(e: EditorStore, fileType: FileType, content: string)
    modifies e
    ensures SnapshotOf(e) == WithContent(old(SnapshotOf(e)), fileType, content)
  {
    match fileType
    case HtmlFile => e.UpdateHtml(content);
    case CssFile => e.UpdateCss(content);
    case JsFile => e.UpdateJs(content);
  }
}
