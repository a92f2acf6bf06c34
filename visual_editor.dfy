/** The visual editor hook (frontend/src/hooks/useVisualEditor.ts): the CSS path
    of a clicked element, the selection, and how an edit of the selected
    element is dispatched between inline styles and an HTML rewrite.  The
    preview's DOM is a parameter: an element is its tag, id, class list, text
    and inline style, together with its chain of ancestors; the serialized
    body after an edit and the computed styles come from the browser. */
module VisualEditor {
  import opened Wrappers
  import opened Strings
  import opened Editor

  /** A DOM element as the hook reads and writes it. */
  datatype Element = Element(tagName: string, id: string, className: string, text: string, style: map<string, string>)

  // ---------------------------------------------------------------------------
  // getElementPath

  /** The pieces of `className.split(' ')` that are not blank. */
  function NonBlank(pieces: seq<string>): (r: seq<string>)
    ensures |r| <= |pieces|
    ensures forall k :: 0 <= k < |r| ==> Trim(r[k]) != "" && r[k] in pieces
  {
    if pieces == [] then []
    else (if Trim(pieces[0]) != "" then [pieces[0]] else []) + NonBlank(pieces[1..])
  }

  /** The selector of one element: the lower-cased tag, then `#id` when the
      id is not empty, else `.` and the classes joined by `.` when there are
      any. */
  function Segment(e: Element): (r: string)
    ensures |r| >= |e.tagName| && r[..|e.tagName|] == ToLower(e.tagName)
  {
    var tag := ToLower(e.tagName);
    if e.id != "" then tag + "#" + e.id
    else if e.className != "" then
      var classes := NonBlank(SplitChar(e.className, ' '));
      if |classes| > 0 then tag + "." + Join(classes, ".") else tag
    else tag
  }

  /** The element and its ancestors below BODY: the chain (the element first,
      then its parent, and so on) up to the first BODY. */
  function BeforeBody(chain: seq<Element>): (r: seq<Element>)
    ensures |r| <= |chain| && r == chain[..|r|]
    ensures forall k :: 0 <= k < |r| ==> chain[k].tagName != "BODY"
    ensures |r| < |chain| ==> chain[|r|].tagName == "BODY"
  {
    if chain == [] || chain[0].tagName == "BODY" then []
    else [chain[0]] + BeforeBody(chain[1..])
  }

  /** The segments of `elements`, the last element first: each step puts the
      parent's segment in front. */
  function Segments(elements: seq<Element>): (r: seq<string>)
    ensures |r| == |elements|
  {
    if elements == [] then []
    else [Segment(elements[|elements| - 1])] + Segments(elements[..|elements| - 1])
  }

  /** The path segments of an element: outermost ancestor below BODY first,
      the element itself last. */
  function PathSegments(chain: seq<Element>): (r: seq<string>)
    ensures |r| == |BeforeBody(chain)|
  {
    Segments(BeforeBody(chain))
  }

  lemma {:induction false} SegmentsReversed(elements: seq<Element>)
    ensures forall k :: 0 <= k < |elements| ==> Segments(elements)[k] == Segment(elements[|elements| - 1 - k])
  {
    if elements != [] {
      var init := elements[..|elements| - 1];
      var n := |elements|;
      SegmentsReversed(init);
      assert Segments(elements) == [Segment(elements[n - 1])] + Segments(init);
      forall k | 0 < k < n
        ensures Segments(elements)[k] == Segment(elements[n - 1 - k])
      {
        assert Segments(elements)[k] == Segments(init)[k - 1];
        assert init[n - 1 - k] == elements[n - 1 - k];
      }
    }
  }

  /** One segment per element below BODY, outermost first, and the last one
      is the element's own. */
  lemma PathOrder(chain: seq<Element>)
    ensures var n := |BeforeBody(chain)|;
      forall k :: 0 <= k < n ==> PathSegments(chain)[k] == Segment(chain[n - 1 - k])
    ensures chain != [] && chain[0].tagName != "BODY" ==>
      |PathSegments(chain)| >= 1 && PathSegments(chain)[|PathSegments(chain)| - 1] == Segment(chain[0])
  {
    var b := BeforeBody(chain);
    var n := |b|;
    SegmentsReversed(b);
    forall k | 0 <= k < n
      ensures PathSegments(chain)[k] == Segment(chain[n - 1 - k])
    {
      assert b[n - 1 - k] == chain[n - 1 - k];
    }
    if chain != [] && chain[0].tagName != "BODY" {
      assert b == [chain[0]] + BeforeBody(chain[1..]);
      assert PathSegments(chain)[n - 1] == Segment(b[0]);
    }
  }

  /** `getElementPath`: walk up from the element until BODY or the top,
      putting each selector in front, and join them with " > ". */
  method GetElementPath(chain: seq<Element>) returns (path: string)
    ensures path == Join(PathSegments(chain), " > ")
  {
    var segments: seq<string> := [];
    var i := 0;
    while i < |chain| && chain[i].tagName != "BODY"
      invariant 0 <= i <= |chain|
      invariant forall k :: 0 <= k < i ==> chain[k].tagName != "BODY"
      invariant segments == Segments(chain[..i])
    {
      var current := chain[i];
      var selector := ToLower(current.tagName);
      if current.id != "" {
        selector := selector + "#" + current.id;
      } else if current.className != "" {
        var classes := NonBlank(SplitChar(current.className, ' '));
        if |classes| > 0 {
          selector := selector + "." + Join(classes, ".");
        }
      }
      assert chain[..i + 1][..i] == chain[..i];
      segments := [selector] + segments;
      i := i + 1;
    }
    assert chain[..i] == BeforeBody(chain) by {
      BeforeBodyIsWalk(chain, i);
    }
    path := Join(segments, " > ");
  }

  /** The walk stops at the first BODY. */
  lemma {:induction false} BeforeBodyIsWalk(chain: seq<Element>, i: nat)
    requires i <= |chain|
    requires forall k :: 0 <= k < i ==> chain[k].tagName != "BODY"
    requires i == |chain| || chain[i].tagName == "BODY"
    ensures BeforeBody(chain) == chain[..i]
  {
    if i > 0 {
      BeforeBodyIsWalk(chain[1..], i - 1);
      assert chain[..i] == [chain[0]] + chain[1..][..i - 1];
    }
  }

  /** `path.split(' > ').pop()`: what follows the last separator the split
      finds, scanning from the left. */
  function LastPiece(s: string, sep: string): string
    requires sep != ""
    decreases |s|
  {
    var i := IndexOf(s, sep);
    if i < 0 then s else LastPiece(s[i + |sep|..], sep)
  }

  /** Text without '>' holds no " > ". */
  lemma NoSeparatorIn(a: string)
    requires '>' !in a
    ensures LastPiece(a, " > ") == a
  {
    forall i | 0 <= i
      ensures !OccursAt(a, " > ", i)
    {
      if i + 3 <= |a| {
        assert a[i..i + 3][1] == a[i + 1];
        assert a[i + 1] in a;
      }
    }
  }

  /** The first " > " of `a + " > " + b` is the one after `a` when `a` has
      no '>'. */
  lemma FirstSeparator(a: string, b: string)
    requires '>' !in a
    ensures LastPiece(a + " > " + b, " > ") == LastPiece(b, " > ")
  {
    var s := a + " > " + b;
    assert s[|a|..|a| + 3] == " > ";
    forall i | 0 <= i < |a|
      ensures !OccursAt(s, " > ", i)
    {
      if i + 1 < |a| {
        assert s[i + 1] == a[i + 1];
        assert a[i + 1] in a;
      } else {
        assert s[i + 1] == ' ';
      }
      assert i + 3 <= |s| ==> s[i..i + 3][1] == s[i + 1];
    }
    assert OccursAt(s, " > ", |a|);
    assert IndexOf(s, " > ") == |a|;
    assert s[|a| + 3..] == b;
  }

  /** Re-selection queries the last segment of the path, the element's own
      selector, provided no segment contains '>'. */
  lemma {:induction false} LastPieceOfPath(parts: seq<string>)
    requires |parts| >= 1
    requires forall k :: 0 <= k < |parts| ==> '>' !in parts[k]
    ensures LastPiece(Join(parts, " > "), " > ") == parts[|parts| - 1]
  {
    if |parts| == 1 {
      NoSeparatorIn(parts[0]);
    } else {
      var rest := Join(parts[1..], " > ");
      assert Join(parts, " > ") == parts[0] + " > " + rest;
      FirstSeparator(parts[0], rest);
      LastPieceOfPath(parts[1..]);
    }
  }

  /** The selector re-selection uses after an HTML rewrite is the element's
      own segment. */
  lemma ReselectionQueriesElement(chain: seq<Element>)
    requires chain != [] && chain[0].tagName != "BODY"
    requires forall k :: 0 <= k < |PathSegments(chain)| ==> '>' !in PathSegments(chain)[k]
    ensures LastPiece(Join(PathSegments(chain), " > "), " > ") == Segment(chain[0])
  {
    PathOrder(chain);
    LastPieceOfPath(PathSegments(chain));
  }

  // ---------------------------------------------------------------------------
  // The selection and its updates

  /** The selected element: what the panel shows, with the DOM node and its
      ancestors. */
  datatype SelectedElement = SelectedElement(
    tagName: string,
    className: string,
    id: string,
    textContent: string,
    styles: map<string, string>,
    path: string,
    node: Element,
    ancestors: seq<Element>)

  /** A `Partial<SelectedElement>` edit; `None` is `undefined`. */
  datatype ElementUpdates = ElementUpdates(
    textContent: Option<string>,
    className: Option<string>,
    id: Option<string>,
    styles: Option<map<string, string>>)

  /** The inline styles written: the entries with a non-empty value. */
  function StyleWrites(styles: Option<map<string, string>>): (r: map<string, string>)
    ensures styles.None? ==> r == map[]
    ensures styles.Some? ==> forall k :: k in r <==> k in styles.value && styles.value[k] != ""
    ensures forall k :: k in r ==> r[k] != "" && styles.Some? && r[k] == styles.value[k]
  {
    if styles.None? then map[]
    else map k | k in styles.value && styles.value[k] != "" :: styles.value[k]
  }

  /** Text, class and id edits change the document's structure; style edits
      do not. */
  predicate NeedsHtmlUpdate(u: ElementUpdates) {
    u.textContent.Some? || u.className.Some? || u.id.Some?
  }

  /** The node after the edit: text, class and id as given, and the
      non-empty styles written inline. */
  function Edited(e: Element, u: ElementUpdates): (r: Element)
    ensures r.tagName == e.tagName
    ensures r.style.Keys == e.style.Keys + StyleWrites(u.styles).Keys
  {
    Element(e.tagName, u.id.GetOr(e.id), u.className.GetOr(e.className), u.textContent.GetOr(e.text),
            e.style + StyleWrites(u.styles))
  }

  /** A style-only edit leaves the node's text, class and id and never asks
      for an HTML rewrite; any text, class or id edit asks for one. */
  lemma StyleEditsStayInline(e: Element, u: ElementUpdates)
    ensures u.textContent.None? && u.className.None? && u.id.None? ==>
      !NeedsHtmlUpdate(u) && Edited(e, u).(style := e.style) == e
    ensures NeedsHtmlUpdate(u) <==> NeedsHtmlUpdate(u.(styles := None))
    ensures forall k :: k in StyleWrites(u.styles) ==> Edited(e, u).style[k] == StyleWrites(u.styles)[k]
    ensures forall k :: k in e.style && k !in StyleWrites(u.styles) ==> Edited(e, u).style[k] == e.style[k]
  {
  }

  /** The hook's state. */
  class VisualEditorState {
    var isVisualEditMode: bool
    var selected: Option<SelectedElement>

    constructor()
      ensures !isVisualEditMode && selected.None?
    {
      isVisualEditMode := false;
      selected := None;
    }

    /** `selectElement`: `chain` is the element and its ancestors, `text` its
        text content and `computed` its computed styles. */
    method SelectElement(chain: seq<Element>, text: string, computed: map<string, string>)
      requires chain != []
      modifies this
      ensures selected == Some(SelectedElement(ToLower(chain[0].tagName), chain[0].className, chain[0].id, Trim(text),
                                              computed, Join(PathSegments(chain), " > "), chain[0], chain[1..]))
      ensures isVisualEditMode == old(isVisualEditMode)
    {
      var path := GetElementPath(chain);
      selected := Some(SelectedElement(ToLower(chain[0].tagName), chain[0].className, chain[0].id, Trim(text),
                                       computed, path, chain[0], chain[1..]));
    }

    /** `clearSelection` */
    method ClearSelection()
      modifies this
      ensures selected.None? && isVisualEditMode == old(isVisualEditMode)
    {
      selected := None;
    }

    /** `updateElement`: nothing without a selection.  Otherwise the node is
        edited in place (the selection holds the same node), the style entries
        are merged into the shown styles, and a text, class or id edit writes
        the serialized body `bodyAfter` to the editor and returns the selector
        re-selection will query. */
    method UpdateElement(u: ElementUpdates, e: EditorStore, bodyAfter: string) returns (reselect: Option<string>)
      modifies this, e
      ensures isVisualEditMode == old(isVisualEditMode)
      ensures e.selectedElement == old(e.selectedElement) && e.viewport == old(e.viewport)
      ensures old(selected).None? ==> selected.None? && e.code == old(e.code) && reselect.None?
      ensures old(selected).Some? ==>
        var s := old(selected).value;
        var node := Edited(s.node, u);
        && selected == Some(s.(node := node, styles := if u.styles.Some? then s.styles + u.styles.value else s.styles))
        && (NeedsHtmlUpdate(u) ==>
              e.code == old(e.code).(html := bodyAfter)
              && reselect == Some(LastPiece(Join(PathSegments([node] + s.ancestors), " > "), " > ")))
        && (!NeedsHtmlUpdate(u) ==> e.code == old(e.code) && reselect.None?)
    {
      reselect := None;
      if selected.None? {
        return;
      }
      var s := selected.value;
      var node := Edited(s.node, u);
      var needsHtmlUpdate := NeedsHtmlUpdate(u);
      selected := Some(s.(node := node));
      if u.styles.Some? {
        selected := Some(s.(node := node, styles := s.styles + u.styles.value));
      }
      if needsHtmlUpdate {
        e.UpdateHtml(bodyAfter);
        var path := GetElementPath([node] + s.ancestors);
        reselect := Some(LastPiece(path, " > "));
      }
    }

    /** `saveChanges`: the preview's body, when it has a document, becomes the
        editor's html. */
    method SaveChanges(body: Option<string>, e: EditorStore)
      modifies e
      ensures body.None? ==> e.code == old(e.code)
      ensures body.Some? ==> e.code == old(e.code).(html := body.value)
      ensures e.selectedElement == old(e.selectedElement) && e.viewport == old(e.viewport)
    {
      if body.None? {
        return;
      }
      e.UpdateHtml(body.value);
    }

    /** `enableVisualEditMode` */
    method Enable()
      modifies this
      ensures isVisualEditMode && selected == old(selected)
    {
      isVisualEditMode := true;
    }

    /** `disableVisualEditMode`: leaving the mode drops the selection. */
    method Disable()
      modifies this
      ensures !isVisualEditMode && selected.None?
    {
      isVisualEditMode := false;
      ClearSelection();
    }
  }
}
