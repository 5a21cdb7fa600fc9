/**
 * The custom cursor: a dot that follows the pointer, changes type with what it
 * hovers over (link, text, image, draggable), shrinks while the button is held,
 * and has a trailing ring sized from the dot.
 */
module CustomCursor {
  import opened Common
  import opened Dom

  datatype CursorType = Default | Hover | Click | Text | Drag | Image

  /** `cursorState`: the type and, for links and buttons, a label. */
  datatype CursorState = CursorState(kind: CursorType, labelText: Option<string>)

  datatype Size = Size(width: int, height: int)

  /** `a, button, [role="button"]` */
  const InteractiveSelectors: seq<Selector> := [Tag("a"), Tag("button"), AttrIs("role", "button")]
  /** `p, h1, h2, h3, h4, h5, h6, span, li, td` */
  const TextSelectors: seq<Selector> :=
    [Tag("p"), Tag("h1"), Tag("h2"), Tag("h3"), Tag("h4"), Tag("h5"), Tag("h6"),
     Tag("span"), Tag("li"), Tag("td")]
  /** `img, [data-cursor="image"]` */
  const ImageSelectors: seq<Selector> := [Tag("img"), AttrIs("data-cursor", "image")]
  /** `[draggable="true"], [data-cursor="drag"]` */
  const DragSelectors: seq<Selector> := [AttrIs("draggable", "true"), AttrIs("data-cursor", "drag")]

  /** Longest label taken from an element's text. */
  const LabelLength: nat := 20

  /** `aria-label || textContent.trim().substring(0, 20) || 'View'`: an empty value
      falls through to the next choice, so the label is never empty. */
  function HoverLabel(e: Element): (l: string)
    ensures l != []
    ensures "aria-label" in e.attrs && e.attrs["aria-label"] != [] ==> l == e.attrs["aria-label"]
    ensures !("aria-label" in e.attrs && e.attrs["aria-label"] != []) ==>
              if Trim(e.textContent) == [] then l == "View"
              else |l| <= LabelLength && |l| <= |Trim(e.textContent)| && l == Trim(e.textContent)[..|l|]
                   && (|l| == LabelLength || l == Trim(e.textContent))
  {
    var aria := GetAttribute(e, "aria-label");
    if aria.Some? && aria.value != [] then aria.value
    else
      var text := Prefix(Trim(e.textContent), LabelLength);
      if text != [] then text else "View"
  }

  /** `handleMouseOver`: the first matching class of element, tested in the order
      link/button, text, image, draggable, wins; nothing matching gives the default. */
  function Classify(path: seq<Element>): (s: CursorState)
    ensures s.kind == Hover <==> Closest(path, InteractiveSelectors).Some?
    ensures s.kind == Text <==> Closest(path, InteractiveSelectors).None?
                                && Closest(path, TextSelectors).Some?
    ensures s.kind == Image <==> Closest(path, InteractiveSelectors).None?
                                 && Closest(path, TextSelectors).None?
                                 && Closest(path, ImageSelectors).Some?
    ensures s.kind == Drag <==> Closest(path, InteractiveSelectors).None?
                                && Closest(path, TextSelectors).None?
                                && Closest(path, ImageSelectors).None?
                                && Closest(path, DragSelectors).Some?
    ensures s.kind != Click
    ensures s.labelText.Some? <==> s.kind == Hover
    ensures s.kind == Hover ==> s.labelText == Some(HoverLabel(Closest(path, InteractiveSelectors).value))
  {
    var interactive := Closest(path, InteractiveSelectors);
    if interactive.Some? then CursorState(Hover, Some(HoverLabel(interactive.value)))
    else if Closest(path, TextSelectors).Some? then CursorState(Text, None)
    else if Closest(path, ImageSelectors).Some? then CursorState(Image, None)
    else if Closest(path, DragSelectors).Some? then CursorState(Drag, None)
    else CursorState(Default, None)
  }

  /** `handleMouseDown`'s update of the previous state. */
  function Pressed(prev: CursorState): (s: CursorState)
    ensures s.kind == Click && s.labelText == prev.labelText
  {
    prev.(kind := Click)
  }

  /** `handleMouseUp`'s update of the previous state. */
  function Released(prev: CursorState): (s: CursorState)
    ensures s.labelText == prev.labelText
    ensures prev.kind == Click ==> s.kind == Default
    ensures prev.kind != Click ==> s == prev
  {
    prev.(kind := if prev.kind == Click then Default else prev.kind)
  }

  /** A press and release return the cursor to the default type, whatever it was,
      with the label it had; releasing again changes nothing. */
  lemma PressRelease(s: CursorState)
    ensures Released(Pressed(s)) == CursorState(Default, s.labelText)
    ensures Released(Released(Pressed(s))) == Released(Pressed(s))
  {
  }

  /** `getCursorSize`. */
  function CursorSize(kind: CursorType): (z: Size)
    ensures z.width > 0 && z.height > 0
    ensures z.width == z.height <==> kind != Text
  {
    match kind
    case Hover => Size(80, 80)
    case Click => Size(30, 30)
    case Text => Size(2, 24)
    case Image => Size(100, 100)
    case Drag => Size(60, 60)
    case Default => Size(40, 40)
  }

  /** Pressing shrinks any round cursor, and releasing restores at least the default
      size (text cursors are the only ones narrower than the pressed dot). */
  lemma PressShrinks(s: CursorState)
    requires s.kind != Text && s.kind != Click
    ensures CursorSize(Pressed(s).kind).width < CursorSize(s.kind).width
    ensures CursorSize(Released(Pressed(s)).kind).width > CursorSize(Pressed(s).kind).width
  {
  }

  /** The trailing ring: the cursor's size plus 20 in each direction. */
  function TrailSize(kind: CursorType): (z: Size)
    ensures z.width == CursorSize(kind).width + 20 && z.height == CursorSize(kind).height + 20
    ensures z.width > 20 && z.height > 20
  {
    var size := CursorSize(kind);
    Size(size.width + 20, size.height + 20)
  }

  /** The ring's opacity: 0.3 while the cursor is visible and not a text caret. */
  function TrailOpacity(isVisible: bool, kind: CursorType): (o: real)
    ensures o == 0.0 <==> !isVisible || kind == Text
    ensures o != 0.0 ==> o == 0.3
  {
    if isVisible && kind != Text then 0.3 else 0.0
  }

  /** The label bubble is rendered for a hover state with a non-empty label. */
  function LabelShown(s: CursorState): (b: bool)
    ensures b ==> s.kind == Hover
  {
    s.kind == Hover && s.labelText.Some? && s.labelText.value != []
  }

  /** Every hover classification shows its label; every other one shows none. */
  lemma ClassifiedLabelShown(path: seq<Element>)
    ensures LabelShown(Classify(path)) <==> Classify(path).kind == Hover
  {
  }

  /** The cursor component's state: the type, whether it is visible, and the pointer
      position its springs chase. */
  class Cursor {
    var state: CursorState
    var isVisible: bool
    var x: real
    var y: real

    constructor ()
      ensures state == CursorState(Default, None) && !isVisible && x == -100.0 && y == -100.0
    {
      state := CursorState(Default, None);
      isVisible := false;
      x, y := -100.0, -100.0;
    }

    /** `moveCursor`: follow the pointer and become visible. */
    method MoveCursor(clientX: real, clientY: real)
      modifies this
      ensures x == clientX && y == clientY && isVisible && state == old(state)
    {
      x, y := clientX, clientY;
      if !isVisible {
        isVisible := true;
      }
    }

    method MouseEnter()
      modifies this
      ensures isVisible && state == old(state) && x == old(x) && y == old(y)
    {
      isVisible := true;
    }

    method MouseLeave()
      modifies this
      ensures !isVisible && state == old(state) && x == old(x) && y == old(y)
    {
      isVisible := false;
    }

    /** `handleMouseOver` for a target whose path up the tree is `path`. */
    method MouseOver(path: seq<Element>)
      modifies this
      ensures state == Classify(path) && isVisible == old(isVisible) && x == old(x) && y == old(y)
    {
      var interactive := Closest(path, InteractiveSelectors);
      if interactive.Some? {
        var text := HoverLabel(interactive.value);
        state := CursorState(Hover, Some(text));
        return;
      }
      if Closest(path, TextSelectors).Some? {
        state := CursorState(Text, None);
        return;
      }
      if Closest(path, ImageSelectors).Some? {
        state := CursorState(Image, None);
        return;
      }
      if Closest(path, DragSelectors).Some? {
        state := CursorState(Drag, None);
        return;
      }
      state := CursorState(Default, None);
    }

    method MouseDown()
      modifies this
      ensures state == Pressed(old(state)) && isVisible == old(isVisible) && x == old(x) && y == old(y)
    {
      state := state.(kind := Click);
    }

    method MouseUp()
      modifies this
      ensures state == Released(old(state)) && isVisible == old(isVisible) && x == old(x) && y == old(y)
    {
      state := state.(kind := if state.kind == Click then Default else state.kind);
    }
  }
}
