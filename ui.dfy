/**
  The immediate-mode UI: `UIElement` state (position, size, `Visible`,
  `Enabled`), `UIButton` with its rising-edge click detector and centred
  caption, and `UICanvas`, which dispatches to its elements in insertion
  order.
*/
module UI {
  import opened Wrappers
  import opened Geometry
  import opened Textures
  import opened Batching
  import opened Fonts
  import opened FontRendering
  import opened Seqs

  /** The state every element inherits from `UIElement`. */
  class UIElement {
    var position: Vec2
    var size: Vec2
    var visible: bool
    var enabled: bool

    constructor ()
      ensures position == Zero2 && size == Zero2 && visible && enabled
    {
      position := Zero2;
      size := Zero2;
      visible := true;
      enabled := true;
    }
  }

  // ---------------------------------------------------------------------
  // UIButton

  /** The hit test: the closed box from `position` to `position + size`, edges included. */
  predicate Hovering(position: Vec2, size: Vec2, mouse: Vec2)
  {
    position.x <= mouse.x <= position.x + size.x && position.y <= mouse.y <= position.y + size.y
  }

  /** What one enabled `Update` sees: whether the cursor hovers and whether the button is down. */
  datatype ButtonInput = ButtonInput(hovering: bool, pressed: bool)

  /** `OnClick` fires on a hovering press that was not down at the previous enabled update. */
  predicate Fires(wasPressed: bool, input: ButtonInput)
  {
    input.hovering && input.pressed && !wasPressed
  }

  /** `_wasPressedLastFrame` after a run of enabled updates. */
  function WasPressedAfter(wasPressed: bool, inputs: seq<ButtonInput>): bool
  {
    if inputs == [] then wasPressed else inputs[|inputs| - 1].pressed
  }

  /** How many times `OnClick` fires over a run of enabled updates. */
  function Clicks(wasPressed: bool, inputs: seq<ButtonInput>): nat
  {
    if inputs == [] then 0
    else
      var init := inputs[..|inputs| - 1];
      Clicks(wasPressed, init) + (if Fires(WasPressedAfter(wasPressed, init), inputs[|inputs| - 1]) then 1 else 0)
  }

  /**
    Holding the button down fires once at most: exactly when it was up
    before the first update and the cursor hovered at that first update.
  */
  lemma {:induction false} HoldingFiresAtMostOnce(wasPressed: bool, inputs: seq<ButtonInput>)
    requires forall i :: 0 <= i < |inputs| ==> inputs[i].pressed
    ensures Clicks(wasPressed, inputs) == (if inputs != [] && !wasPressed && inputs[0].hovering then 1 else 0)
    ensures Clicks(wasPressed, inputs) <= 1
  {
    if inputs != [] {
      var init := inputs[..|inputs| - 1];
      HoldingFiresAtMostOnce(wasPressed, init);
      if init != [] {
        assert init[0] == inputs[0];
        assert WasPressedAfter(wasPressed, init) == init[|init| - 1].pressed;
      }
    }
  }

  /** Releasing between two hovering presses makes each press fire. */
  lemma PressReleasePress(wasPressed: bool)
    ensures Clicks(wasPressed, [ButtonInput(true, true), ButtonInput(true, false), ButtonInput(true, true)])
         == (if wasPressed then 1 else 2)
  {
    var inputs := [ButtonInput(true, true), ButtonInput(true, false), ButtonInput(true, true)];
    assert inputs[..2] == [ButtonInput(true, true), ButtonInput(true, false)];
    assert inputs[..2][..1] == [ButtonInput(true, true)];
    assert inputs[..2][..1][..0] == [];
    assert Clicks(wasPressed, inputs[..2][..1]) == (if wasPressed then 0 else 1);
    assert Clicks(wasPressed, inputs[..2]) == (if wasPressed then 0 else 1);
  }

  /** Where the caption starts: the leftover of the button box around the text, halved. */
  function TextPosition(position: Vec2, size: Vec2, textSize: Vec2): Vec2
  {
    Add(position, Scale(Sub(size, textSize), 0.5))
  }

  /**
    The caption is centred: the space left of the text equals the space
    right of where the pen stops, and the text box's centre is the button's.
  */
  lemma CaptionCentered(glyphs: map<int, Glyph>, lineHeight: real, text: string, position: Vec2, size: Vec2)
    ensures var textSize := Vec2(Width(glyphs, text), Height(glyphs, lineHeight, text));
            var start := TextPosition(position, size, textSize);
            var pen := Pen(glyphs, text, start, 1.0);
            start.x - position.x == (position.x + size.x) - pen.x &&
            Add(start, Scale(textSize, 0.5)) == Add(position, Scale(size, 0.5))
  {
    var textSize := Vec2(Width(glyphs, text), Height(glyphs, lineHeight, text));
    PenAdvancesByWidth(glyphs, text, TextPosition(position, size, textSize), 1.0);
  }

  class UIButton {
    /** The inherited `UIElement` state. */
    const element: UIElement
    var text: string
    var font: BitmapFont
    var backgroundColor: Vec4
    var textColor: Vec4
    var wasPressedLastFrame: bool

    constructor (text: string, font: BitmapFont)
      ensures fresh(element) && element.position == Zero2 && element.size == Vec2(120.0, 40.0)
      ensures element.visible && element.enabled
      ensures this.text == text && this.font == font && !wasPressedLastFrame
      ensures backgroundColor == Vec4(0.2, 0.2, 0.2, 1.0) && textColor == One4
    {
      element := new UIElement();
      this.text := text;
      this.font := font;
      backgroundColor := Vec4(0.2, 0.2, 0.2, 1.0);
      textColor := One4;
      wasPressedLastFrame := false;
      new;
      element.size := Vec2(120.0, 40.0);
    }

    /**
      One frame of input. `clicked` says whether `OnClick` is invoked. A
      disabled button changes nothing; an enabled one remembers `pressed`
      whether or not the cursor hovers.
    */
    method Update(mousePosition: Vec2, isMousePressed: bool) returns (clicked: bool)
      modifies this
      ensures !element.enabled ==> !clicked && wasPressedLastFrame == old(wasPressedLastFrame)
      ensures element.enabled ==>
                clicked == Fires(old(wasPressedLastFrame),
                                 ButtonInput(Hovering(element.position, element.size, mousePosition), isMousePressed)) &&
                wasPressedLastFrame == isMousePressed
      ensures text == old(text) && font == old(font)
      ensures backgroundColor == old(backgroundColor) && textColor == old(textColor)
    {
      clicked := false;
      if !element.enabled {
        return;
      }
      var isHovering := mousePosition.x >= element.position.x && mousePosition.x <= element.position.x + element.size.x &&
                        mousePosition.y >= element.position.y && mousePosition.y <= element.position.y + element.size.y;
      if isHovering && isMousePressed && !wasPressedLastFrame {
        clicked := true;
      }
      wasPressedLastFrame := isMousePressed;
    }

    /**
      A background quad over the whole button with the white texture
      `white`, then the caption centred in it. Fails where a batch draw
      fails: when the batch cannot take the quad and the caption's glyphs.
    */
    method Render(batch: SpriteBatch2D, white: Texture) returns (ok: bool)
      requires batch.Valid()
      modifies batch, batch.vertices
      ensures batch.Valid()
      ensures !element.visible ==>
                ok && batch.calls == old(batch.calls) && batch.flushes == old(batch.flushes) &&
                batch.spriteCount == old(batch.spriteCount)
      ensures element.visible ==> (ok <==> old(batch.spriteCount) + 1 + KnownCount(font.glyphs, text) <= MaxSprites)
      ensures element.visible && ok ==>
                var textSize := Vec2(Width(font.glyphs, text), Height(font.glyphs, font.lineHeight, text));
                batch.calls == old(batch.calls) +
                               [DrawCall(white, element.position, element.size, None, backgroundColor, Zero2, NoRotation)] +
                               TextCalls(font.glyphs, font.texture, text,
                                         TextPosition(element.position, element.size, textSize), textColor, 1.0) &&
                batch.flushes == old(batch.flushes) &&
                batch.spriteCount == old(batch.spriteCount) + 1 + KnownCount(font.glyphs, text)
    {
      if !element.visible {
        return true;
      }
      var drawn := batch.Draw(white, element.position, element.size, backgroundColor, Zero2, NoRotation);
      if !drawn {
        return false;
      }
      var textSize := font.MeasureString(text);
      var textPos := Add(element.position, Scale(Sub(element.size, textSize), 0.5));
      var fontRenderer := new BitmapFontRenderer(font);
      ok := fontRenderer.DrawText(batch, text, textPos, textColor, 1.0);
    }
  }

  // ---------------------------------------------------------------------
  // UICanvas

  /** The elements with `Enabled` set, in insertion order. */
  function EnabledElements(es: seq<UIElement>): (r: seq<UIElement>)
    reads set e | e in es
    ensures |r| <= |es|
    ensures forall i :: 0 <= i < |r| ==> r[i] in es && r[i].enabled
    ensures forall i :: 0 <= i < |es| && es[i].enabled ==> es[i] in r
  {
    if es == [] then []
    else
      var e := es[|es| - 1];
      EnabledElements(es[..|es| - 1]) + (if e.enabled then [e] else [])
  }

  /** The elements with `Visible` set, in insertion order. */
  function VisibleElements(es: seq<UIElement>): (r: seq<UIElement>)
    reads set e | e in es
    ensures |r| <= |es|
    ensures forall i :: 0 <= i < |r| ==> r[i] in es && r[i].visible
    ensures forall i :: 0 <= i < |es| && es[i].visible ==> es[i] in r
  {
    if es == [] then []
    else
      var e := es[|es| - 1];
      VisibleElements(es[..|es| - 1]) + (if e.visible then [e] else [])
  }

  /** What the canvas's render pass does to the batch and its elements, in order. */
  datatype CanvasEvent = BatchBegin | RenderElement(element: UIElement) | BatchEnd

  function RenderEvents(es: seq<UIElement>): (evs: seq<CanvasEvent>)
    ensures |evs| == |es|
    ensures forall i :: 0 <= i < |es| ==> evs[i] == RenderElement(es[i])
  {
    if es == [] then [] else RenderEvents(es[..|es| - 1]) + [RenderElement(es[|es| - 1])]
  }

  /** Filtering keeps insertion order: the filter of a concatenation is the concatenation of the filters. */
  lemma {:induction false} EnabledAppend(a: seq<UIElement>, b: seq<UIElement>)
    ensures EnabledElements(a + b) == EnabledElements(a) + EnabledElements(b)
  {
    if b == [] {
      ConcatEmpty(a);
      ConcatEmpty(EnabledElements(a));
    } else {
      EnabledAppend(a, b[..|b| - 1]);
      ConcatPrefix(a, b);
    }
  }

  /** The same for the render pass's visibility filter. */
  lemma {:induction false} VisibleAppend(a: seq<UIElement>, b: seq<UIElement>)
    ensures VisibleElements(a + b) == VisibleElements(a) + VisibleElements(b)
  {
    if b == [] {
      ConcatEmpty(a);
      ConcatEmpty(VisibleElements(a));
    } else {
      VisibleAppend(a, b[..|b| - 1]);
      ConcatPrefix(a, b);
    }
  }

  class UICanvas {
    var elements: seq<UIElement>

    constructor ()
      ensures elements == []
    {
      elements := [];
    }

    /** Appends; the earlier elements keep their order. */
    method Add(element: UIElement)
      modifies this
      ensures elements == old(elements) + [element]
    {
      elements := elements + [element];
    }

    /**
      Dispatches the input to every enabled element, in insertion order;
      returns the elements whose `Update` is called.
    */
    method Update(mousePosition: Vec2, isMousePressed: bool) returns (updated: seq<UIElement>)
      ensures updated == EnabledElements(elements)
    {
      updated := [];
      for i := 0 to |elements|
        invariant updated == EnabledElements(elements[..i])
      {
        assert elements[..i + 1][..i] == elements[..i];
        if elements[i].enabled {
          updated := updated + [elements[i]];
        }
      }
      assert elements[..|elements|] == elements;
    }

    /** One `Begin`, the visible elements' `Render` in insertion order, one `End`. */
    method Render() returns (events: seq<CanvasEvent>)
      ensures events == [BatchBegin] + RenderEvents(VisibleElements(elements)) + [BatchEnd]
    {
      events := [BatchBegin];
      for i := 0 to |elements|
        invariant events == [BatchBegin] + RenderEvents(VisibleElements(elements[..i]))
      {
        assert elements[..i + 1][..i] == elements[..i];
        if elements[i].visible {
          events := events + [RenderElement(elements[i])];
        }
      }
      assert elements[..|elements|] == elements;
      events := events + [BatchEnd];
    }
  }

  /**
    Adding an element extends the dispatch lists by that element when its
    flag is set, and leaves the earlier entries as they were.
  */
  lemma AddExtendsDispatch(es: seq<UIElement>, e: UIElement)
    ensures EnabledElements(es + [e]) == EnabledElements(es) + (if e.enabled then [e] else [])
    ensures VisibleElements(es + [e]) == VisibleElements(es) + (if e.visible then [e] else [])
  {
    assert (es + [e])[..|es|] == es;
  }
}
