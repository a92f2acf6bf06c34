/** The editor store (frontend/src/store/useEditorStore.ts): the code being
    edited, the selected element and the preview viewport, with one setter per
    part. */
module Editor {
  import opened Wrappers

  datatype Viewport = Mobile | Tablet | Desktop

  datatype Code = Code(html: string, css: string, js: string)

  const EmptyCode := Code("", "", "")

  class EditorStore {
    var code: Code
    var selectedElement: Option<string>
    var viewport: Viewport

    /** Empty code, nothing selected, the desktop viewport. */
    constructor()
      ensures code == EmptyCode && selectedElement.None? && viewport == Desktop
    {
      code := EmptyCode;
      selectedElement := None;
      viewport := Desktop;
    }

    /** `setCode` replaces the three code parts and nothing else. */
    method SetCode(c: Code)
      modifies this
      ensures code == c
      ensures selectedElement == old(selectedElement) && viewport == old(viewport)
    {
      code := c;
    }

    method UpdateHtml(html: string)
      modifies this
      ensures code == old(code).(html := html)
      ensures selectedElement == old(selectedElement) && viewport == old(viewport)
    {
      code := code.(html := html);
    }

    method UpdateCss(css: string)
      modifies this
      ensures code == old(code).(css := css)
      ensures selectedElement == old(selectedElement) && viewport == old(viewport)
    {
      code := code.(css := css);
    }

    method UpdateJs(js: string)
      modifies this
      ensures code == old(code).(js := js)
      ensures selectedElement == old(selectedElement) && viewport == old(viewport)
    {
      code := code.(js := js);
    }

    method SetSelectedElement(element: Option<string>)
      modifies this
      ensures selectedElement == element
      ensures code == old(code) && viewport == old(viewport)
    {
      selectedElement := element;
    }

    method SetViewport(v: Viewport)
      modifies this
      ensures viewport == v
      ensures code == old(code) && selectedElement == old(selectedElement)
    {
      viewport := v;
    }

    /** `clearCode` empties the code and the selection but keeps the
        viewport. */
    method ClearCode()
      modifies this
      ensures code == EmptyCode && selectedElement.None? && viewport == old(viewport)
    {
      code := EmptyCode;
      selectedElement := None;
    }
  }
}
