/** The selectable GUI elements: `Selectable` keeps a selection flag and an optional select event,
  * and `InputBox` is the selectable text field that types characters from the input manager's
  * queue into a capped text shown by a font renderer. `Selectable` is abstract in the source, with
  * `onSelect` left to subclasses; `InputBox` is its one subclass here, so the selection state and
  * `select` live in the `InputBox` class, and what `select` does in general is `SelectEffects`. */
module Gui {
  import opened Java
  import opened Keys
  import opened Input
  import opened Fonts
  import opened Textures

  /** The text cap of a new input box. */
  const DEFAULT_CAP: int := 10

  /** The GLFW key codes the input box reacts to. */
  const GLFW_KEY_ENTER: int := 257
  const GLFW_KEY_BACKSPACE: int := 259

  // ---------------------------------------------------------------- selection

  /** What `select` observably does, in order: entering the `onSelect` hook with its argument, and
    * firing a GUI event (events are user callbacks, identified here by a handle). */
  datatype Effect = Hook(selected: bool) | Fire(event: nat)

  /** `Selectable.select(b)`: the hook `onSelect(b)`, then the select event when selecting and one is
    * set. The unselect event has no setter, so it is always `null` and never fires. */
  function SelectEffects(b: bool, selectEvent: Option<nat>): (es: seq<Effect>)
  {
    [Hook(b)] + (if b && selectEvent.Some? then [Fire(selectEvent.value)] else [])
  }

  /** `select(b)` enters the hook exactly once, with `b`, before anything else. */
  lemma SelectHookOnce(b: bool, selectEvent: Option<nat>)
    ensures var es := SelectEffects(b, selectEvent);
      |es| >= 1 && es[0] == Hook(b) && forall k :: 1 <= k < |es| ==> es[k].Fire?
  {
  }

  /** An event fires exactly when selecting with a select event set, and it is that event. */
  lemma SelectEventFires(b: bool, selectEvent: Option<nat>)
    ensures var es := SelectEffects(b, selectEvent);
      ((exists k :: 0 <= k < |es| && es[k].Fire?) <==> b && selectEvent.Some?) &&
      (forall k :: 0 <= k < |es| && es[k].Fire? ==> selectEvent == Some(es[k].event))
  {
    var es := SelectEffects(b, selectEvent);
    if b && selectEvent.Some? {
      assert es[1].Fire?;
    }
  }

  // ---------------------------------------------------------------- typing

  /** Whether a text may grow: below the cap, or any length when the cap is 0. */
  predicate Accepts(text: string, cap: int)
  {
    |text| < cap || cap == 0
  }

  /** The bound every edit but `setText` keeps: a positive cap bounds the length. */
  predicate WithinCap(text: string, cap: int)
  {
    cap <= 0 || |text| <= cap
  }

  /** Typing at most one character into an accepting text keeps it within the cap. */
  lemma AcceptsGrowsWithinCap(text: string, cap: int, after: string)
    requires Accepts(text, cap) && |after| <= |text| + 1
    ensures WithinCap(text, cap) ==> WithinCap(after, cap)
  {
  }

  /** With a negative cap nothing is ever accepted. */
  lemma NegativeCapRefuses(text: string, cap: int)
    requires cap < 0
    ensures !Accepts(text, cap)
  {
  }

  /** The text a UTF-16 code unit appends: the unit as a character, or nothing for a surrogate unit,
    * which a Dafny character cannot hold. */
  function UnitText(u: int): (s: string)
    ensures |s| <= 1
    ensures (0 <= u < 0xD800 || 0xE000 <= u < 0x11_0000) ==> s == [u as char]
  {
    if 0 <= u < 0xD800 || 0xE000 <= u < 0x11_0000 then [u as char] else []
  }

  /** Backspace: the text without its last character; empty text stays empty. */
  function Backspace(text: string): (r: string)
    ensures |text| >= 1 ==> r + [text[|text| - 1]] == text
    ensures |text| == 0 ==> r == text
  {
    if |text| < 1 then text else text[..|text| - 1]
  }

  /** Backspace undoes typing a character. */
  lemma BackspaceUndoesTyping(text: string, c: char)
    ensures Backspace(text + [c]) == text
  {
  }

  /** Backspace never leaves the cap. */
  lemma BackspaceShortens(text: string, cap: int)
    ensures |Backspace(text)| <= |text|
    ensures WithinCap(text, cap) ==> WithinCap(Backspace(text), cap)
  {
  }

  /** The least element of a nonempty queue: the one the input manager hands out next. */
  function Least(q: seq<int>): (m: int)
    requires q != []
    ensures m in q && forall x :: x in q ==> m <= x
  {
    if |q| == 1 then q[0]
    else
      var t := Least(q[1..]);
      assert forall x :: x in q ==> x == q[0] || x in q[1..];
      if q[0] <= t then q[0] else t
  }

  /** Two least elements of the same queue are equal. */
  lemma LeastUnique(q: seq<int>, m: int)
    requires m in q && forall x :: x in q ==> m <= x
    ensures m == Least(q)
  {
  }

  // ---------------------------------------------------------------- the input box

  class InputBox {
    var selected: bool
    var selectEvent: Option<nat>
    /** The hooks entered and events fired by `select`, oldest first. */
    var effects: seq<Effect>
    var text: string
    var textCap: int
    /** The static input manager of the source. */
    const input: InputManager
    const fontRenderer: FontRenderer
    /** The renderer's texture when it is a dynamic texture, else `null`. */
    const texture: DynamicTexture?

    /** The font renderer shows this box's text. */
    predicate Shown()
      reads this, fontRenderer
    {
      fontRenderer.text == text
    }

    /** A box around a built renderer: unselected, no select event, empty text, the default cap. */
    constructor (input: InputManager, fontRenderer: FontRenderer, texture: DynamicTexture?)
      ensures !selected && selectEvent == None && effects == [] && text == "" && textCap == DEFAULT_CAP
      ensures this.input == input && this.fontRenderer == fontRenderer && this.texture == texture
    {
      this.input := input;
      this.fontRenderer := fontRenderer;
      this.texture := texture;
      selected, selectEvent, effects := false, None, [];
      text, textCap := "", DEFAULT_CAP;
    }

    /** `new InputBox(x, y, width, height, texture, font, size)`: the renderer for the empty text throws
      * when the font has no page texture. */
    static method Create(input: InputManager, characters: map<int, FontChar>, page: Option<string>, size: real,
                         texture: DynamicTexture?) returns (r: Result<InputBox>)
      ensures r.Ok? <==> page.Some?
      ensures page.None? ==> r == Throws(NullPointer)
      ensures r.Ok? ==> var b := r.value;
        fresh(b) && fresh(b.fontRenderer) &&
        !b.selected && b.selectEvent == None && b.effects == [] && b.text == "" && b.textCap == DEFAULT_CAP &&
        b.input == input && b.texture == texture &&
        b.fontRenderer.characters == characters && b.fontRenderer.size == size &&
        b.fontRenderer.page == page.value && b.Shown()
    {
      var fr := FontRenderer.Create("", characters, page, size);
      if fr.Throws? {
        return Throws(fr.ex);
      }
      var b := new InputBox(input, fr.value, texture);
      r := Ok(b);
    }

    function IsSelected(): (b: bool)
      reads this
      ensures b == selected
    {
      selected
    }

    /** `None` is `setSelectEvent(null)`, which clears the event. */
    method SetSelectEvent(e: Option<nat>)
      modifies this`selectEvent
      ensures selectEvent == e
    {
      selectEvent := e;
    }

    /** Whether the texture swap in `onSelect` throws: a dynamic texture without a sheet, or with a
      * sheet of no columns. */
    predicate SwapFails()
      reads this, texture, if texture != null && texture.sheet != null then {texture.sheet} else {}
    {
      texture != null && (texture.sheet == null || texture.sheet.spritesX == 0)
    }

    /** `onSelect`: selecting clears the char queue; a dynamic texture shows sprite 1 when selected and
      * sprite 0 otherwise. */
    method OnSelect(b: bool) returns (o: Outcome)
      modifies this`effects, input`charQueue, texture
      ensures effects == old(effects) + [Hook(b)]
      ensures input.charQueue == if b then [] else old(input.charQueue)
      ensures o.Normal? <==> !old(SwapFails())
      ensures o.Thrown? ==> texture != null && unchanged(texture)
      ensures o.Normal? && texture != null ==>
        texture.sheet != null && texture.sheet.spritesX != 0 &&
        texture.x == JavaRem(if b then 1 else 0, texture.sheet.spritesX) &&
        texture.y == FloorDiv(if b then 1 else 0, texture.sheet.spritesX)
      ensures texture != null ==> texture.sheet == old(texture.sheet)
    {
      effects := effects + [Hook(b)];
      if b {
        input.ClearCharQueue();
      }
      o := Normal;
      if texture != null {
        o := texture.Swap(if b then 1 else 0);
      }
    }

    /** `select(b)`: sets the flag, enters the hook, then fires the select event when selecting; an
      * exception from the hook comes out before any event fires. */
    method Select(b: bool) returns (o: Outcome)
      modifies this`selected, this`effects, input`charQueue, texture
      ensures selected == b && selectEvent == old(selectEvent)
      ensures input.charQueue == if b then [] else old(input.charQueue)
      ensures o.Normal? <==> !old(SwapFails())
      ensures effects == old(effects) + if o.Normal? then SelectEffects(b, selectEvent) else [Hook(b)]
      ensures o.Thrown? ==> texture != null && unchanged(texture)
      ensures o.Normal? && texture != null ==>
        texture.sheet != null && texture.sheet.spritesX != 0 &&
        texture.x == JavaRem(if b then 1 else 0, texture.sheet.spritesX) &&
        texture.y == FloorDiv(if b then 1 else 0, texture.sheet.spritesX)
      ensures texture != null ==> texture.sheet == old(texture.sheet)
    {
      selected := b;
      o := OnSelect(b);
      if o.Thrown? {
        return;
      }
      if b && selectEvent.Some? {
        effects := effects + [Fire(selectEvent.value)];
      }
    }

    /** `onClick`: toggles the selection. */
    method OnClick() returns (o: Outcome)
      modifies this`selected, this`effects, input`charQueue, texture
      ensures selected == !old(selected)
      ensures o.Normal? <==> !old(SwapFails())
      ensures effects == old(effects) + if o.Normal? then SelectEffects(selected, selectEvent) else [Hook(selected)]
      ensures input.charQueue == if selected then [] else old(input.charQueue)
      ensures o.Thrown? ==> texture != null && unchanged(texture)
      ensures o.Normal? && texture != null ==>
        texture.sheet != null && texture.sheet.spritesX != 0 &&
        texture.x == JavaRem(if selected then 1 else 0, texture.sheet.spritesX) &&
        texture.y == FloorDiv(if selected then 1 else 0, texture.sheet.spritesX)
      ensures texture != null ==> texture.sheet == old(texture.sheet)
    {
      o := Select(!selected);
    }

    /** Takes the next queued character, the first UTF-16 unit of the least queued code point, and
      * types it; a code point outside Unicode throws after it has been taken. */
    method TypeNext() returns (o: Outcome)
      requires input.charQueue != []
      modifies this`text, input`charQueue, fontRenderer`text, fontRenderer`mesh
      ensures var m := Least(old(input.charQueue));
        multiset(input.charQueue) == multiset(old(input.charQueue)) - multiset{m} &&
        match FirstCodeUnit(m)
        case Throws(ex) => o == Thrown(ex) && text == old(text) && unchanged(fontRenderer)
        case Ok(u) => (text == old(text) + UnitText(u) && fontRenderer.text == text &&
          (o.Normal? <==> |text| < 1 || Drawable(fontRenderer.characters, text)))
      ensures |text| <= |old(text)| + 1
      ensures old(Shown()) ==> Shown()
    {
      ghost var q := input.charQueue;
      var c := input.NextChar();
      ghost var m :| m in q && (forall x :: x in q ==> m <= x) &&
        multiset(input.charQueue) == multiset(q) - multiset{m} && c == FirstCodeUnit(m);
      LeastUnique(q, m);
      if c.Throws? {
        return Thrown(c.ex);
      }
      var t := text + UnitText(c.value);
      text := t;
      o := fontRenderer.ReallocateText(t);
    }

    /** `onUpdate`: while selected, takes the next queued character if the text accepts one and
      * clears the queue if it does not. */
    method OnUpdate() returns (o: Outcome)
      modifies this`text, input`charQueue, fontRenderer`text, fontRenderer`mesh
      ensures !selected || old(input.charQueue) == [] ==>
        o == Normal && text == old(text) && input.charQueue == old(input.charQueue) && unchanged(fontRenderer)
      ensures selected && old(input.charQueue) != [] && !Accepts(old(text), textCap) ==>
        o == Normal && text == old(text) && input.charQueue == [] && unchanged(fontRenderer)
      ensures selected && old(input.charQueue) != [] && Accepts(old(text), textCap) ==>
        var m := Least(old(input.charQueue));
        multiset(input.charQueue) == multiset(old(input.charQueue)) - multiset{m} &&
        match FirstCodeUnit(m)
        case Throws(ex) => o == Thrown(ex) && text == old(text) && unchanged(fontRenderer)
        case Ok(u) => (text == old(text) + UnitText(u) && fontRenderer.text == text &&
          (o.Normal? <==> |text| < 1 || Drawable(fontRenderer.characters, text)))
      ensures old(WithinCap(text, textCap)) ==> WithinCap(text, textCap)
      ensures old(Shown()) ==> Shown()
    {
      o := Normal;
      if !selected || !input.HasNextChar() {
        return;
      }
      if Accepts(text, textCap) {
        ghost var before := text;
        o := TypeNext();
        AcceptsGrowsWithinCap(before, textCap, text);
      } else {
        input.ClearCharQueue();
      }
    }

    /** Removes the last character and re-renders; nothing happens to empty text. */
    method DeleteLast() returns (o: Outcome)
      modifies this`text, fontRenderer`text, fontRenderer`mesh
      ensures text == Backspace(old(text))
      ensures |old(text)| < 1 ==> o == Normal && unchanged(fontRenderer)
      ensures |old(text)| >= 1 ==> fontRenderer.text == text && (o.Normal? <==> |text| < 1 || Drawable(fontRenderer.characters, text))
      ensures old(WithinCap(text, textCap)) ==> WithinCap(text, textCap)
      ensures old(Shown()) ==> Shown()
    {
      o := Normal;
      if |text| < 1 {
        return;
      }
      var t := Backspace(text);
      BackspaceShortens(text, textCap);
      text := t;
      o := fontRenderer.ReallocateText(t);
    }

    /** `onKeyTrigger`: Enter pressed deselects a selected box; Backspace pressed or repeated deletes
      * the last character, selected or not; everything else is ignored. */
    method OnKeyTrigger(key: int, mods: int, action: int) returns (o: Outcome)
      modifies this`selected, this`effects, input`charQueue, texture, this`text, fontRenderer`text, fontRenderer`mesh
      ensures input.charQueue == old(input.charQueue)
      ensures action == GLFW_PRESS && key == GLFW_KEY_ENTER && old(selected) ==>
        !selected && text == old(text) && (o.Normal? <==> !old(SwapFails())) &&
        effects == old(effects) + [Hook(false)] && unchanged(fontRenderer) &&
        (o.Thrown? ==> texture != null && unchanged(texture)) &&
        (o.Normal? && texture != null ==>
          texture.sheet != null && texture.sheet.spritesX != 0 &&
          texture.x == JavaRem(0, texture.sheet.spritesX) && texture.y == FloorDiv(0, texture.sheet.spritesX))
      ensures texture != null ==> texture.sheet == old(texture.sheet)
      ensures (action == GLFW_PRESS || action == GLFW_REPEAT) && key == GLFW_KEY_BACKSPACE ==>
        text == Backspace(old(text)) && selected == old(selected) && effects == old(effects) &&
        (o.Normal? <==> |old(text)| < 1 || |text| < 1 || Drawable(fontRenderer.characters, text)) &&
        (texture != null ==> unchanged(texture))
      ensures (!(action == GLFW_PRESS && key == GLFW_KEY_ENTER && old(selected)) &&
        !((action == GLFW_PRESS || action == GLFW_REPEAT) && key == GLFW_KEY_BACKSPACE)) ==>
        o == Normal && text == old(text) && selected == old(selected) && effects == old(effects) &&
        unchanged(fontRenderer) && (texture != null ==> unchanged(texture))
      ensures old(WithinCap(text, textCap)) ==> WithinCap(text, textCap)
      ensures old(Shown()) ==> Shown()
    {
      o := Normal;
      if action == GLFW_PRESS {
        if key == GLFW_KEY_ENTER {
          if selected {
            o := Select(false);
          }
        } else if key == GLFW_KEY_BACKSPACE {
          o := DeleteLast();
        }
      } else if action == GLFW_REPEAT && key == GLFW_KEY_BACKSPACE {
        o := DeleteLast();
      }
    }

    /** `setText`: replaces the text, ignoring the cap, and re-renders. */
    method SetText(t: string) returns (o: Outcome)
      modifies this`text, fontRenderer`text, fontRenderer`mesh
      ensures text == t && Shown()
      ensures o.Normal? <==> |t| < 1 || Drawable(fontRenderer.characters, t)
    {
      text := t;
      o := fontRenderer.ReallocateText(t);
    }

    function GetText(): (t: string)
      reads this
      ensures t == text
    {
      text
    }

    /** `setTextCap`: 0 means no limit. */
    method SetTextCap(cap: int)
      modifies this`textCap
      ensures textCap == cap
    {
      textCap := cap;
    }

    function GetTextCap(): (c: int)
      reads this
      ensures c == textCap
    {
      textCap
    }
  }
}
