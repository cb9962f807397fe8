/**
 * The start screen: a title and a start button laid out relative to the
 * window size, and click detection on the button that fires on the press
 * of the left mouse button (a rising edge) while the pointer is over it.
 */
module StartScreen {
  import opened Vectors

  /** Title size as a fraction of the window: 80% wide, 20% high. */
  const TitleRatio: Vec2 := Vec2(0.8, 0.2)

  /** Button size as a fraction of the window: 20% wide, 10% high. */
  const ButtonRatio: Vec2 := Vec2(0.2, 0.1)

  /** Top of the title and of the button, as fractions of the window height. */
  const TitleTop: real := 0.12
  const ButtonTop: real := 0.6

  /** Positions (top-left corners) and sizes of the title and the button. */
  datatype Layout = Layout(titlePos: Vec2, titleSize: Vec2, buttonPos: Vec2, buttonSize: Vec2)

  /** The layout for a window of the given size: both elements centred horizontally. */
  function LayoutFor(size: Vec2): Layout {
    var titleSize := Vec2(size.x * TitleRatio.x, size.y * TitleRatio.y);
    var buttonSize := Vec2(size.x * ButtonRatio.x, size.y * ButtonRatio.y);
    Layout(Vec2((size.x - titleSize.x) / 2.0, size.y * TitleTop), titleSize,
           Vec2((size.x - buttonSize.x) / 2.0, size.y * ButtonTop), buttonSize)
  }

  /** The pointer lies in the closed rectangle of the button. */
  predicate Hover(l: Layout, mouse: Vec2) {
    l.buttonPos.x <= mouse.x <= l.buttonPos.x + l.buttonSize.x &&
    l.buttonPos.y <= mouse.y <= l.buttonPos.y + l.buttonSize.y
  }

  /** The two remembered flags of the button: the pointer was over it, and the left button was down at the last non-click. */
  datatype ButtonState = ButtonState(hover: bool, prevLeftDown: bool)

  /** A click: the left button is down now, was not down at the last call that did not click, and the pointer is over the button. */
  predicate Clicks(s: ButtonState, l: Layout, mouse: Vec2, leftDown: bool) {
    leftDown && !s.prevLeftDown && Hover(l, mouse)
  }

  /** The flags after one check: hover is refreshed; the previous button state is recorded only when no click fires. */
  function AfterCheck(s: ButtonState, l: Layout, mouse: Vec2, leftDown: bool): ButtonState {
    ButtonState(Hover(l, mouse), if Clicks(s, l, mouse, leftDown) then s.prevLeftDown else leftDown)
  }

  /** `n` checks in a row with the same pointer position and button state. */
  function Repeat(s: ButtonState, l: Layout, mouse: Vec2, leftDown: bool, n: nat): ButtonState
    decreases n
  {
    if n == 0 then s else AfterCheck(Repeat(s, l, mouse, leftDown, n - 1), l, mouse, leftDown)
  }

  /** Both elements are centred horizontally, at the fixed fractions of the window. */
  lemma LayoutCentred(size: Vec2)
    ensures var l := LayoutFor(size);
      l.titlePos.x + l.titleSize.x / 2.0 == size.x / 2.0 &&
      l.buttonPos.x + l.buttonSize.x / 2.0 == size.x / 2.0 &&
      l.titleSize == Vec2(0.8 * size.x, 0.2 * size.y) && l.buttonSize == Vec2(0.2 * size.x, 0.1 * size.y) &&
      l.titlePos.y == 0.12 * size.y && l.buttonPos.y == 0.6 * size.y
  {
  }

  /** In a window of non-negative size both elements fit, and the title ends above the button. */
  lemma LayoutFits(size: Vec2)
    requires size.x >= 0.0 && size.y >= 0.0
    ensures var l := LayoutFor(size);
      0.0 <= l.buttonPos.x && l.buttonPos.x + l.buttonSize.x <= size.x &&
      0.0 <= l.titlePos.x && l.titlePos.x + l.titleSize.x <= size.x &&
      l.buttonPos.y + l.buttonSize.y <= size.y &&
      l.titlePos.y + l.titleSize.y <= l.buttonPos.y
  {
  }

  /**
   * Clicks fire on the rising edge of the button: a check with the button up
   * never clicks and arms the next check, which then clicks exactly when the
   * pointer is over the button; after a check with the button down, the next
   * press clicks only if that check clicked too (the button was not yet
   * recorded as down) and the pointer is over the button.
   */
  lemma RisingEdge(s: ButtonState, l: Layout, mouse: Vec2, next: Vec2)
    ensures !Clicks(s, l, mouse, false)
    ensures Clicks(AfterCheck(s, l, mouse, false), l, next, true) <==> Hover(l, next)
    ensures Clicks(AfterCheck(s, l, mouse, true), l, next, true) <==> Clicks(s, l, mouse, true) && Hover(l, next)
    ensures AfterCheck(s, l, mouse, true).hover == Hover(l, mouse)
  {
  }

  /**
   * Because a click does not record that the button is down, holding it
   * down over the button after a click keeps reporting a click on every
   * later check.
   */
  lemma {:induction false} HoldingKeepsClicking(s: ButtonState, l: Layout, mouse: Vec2, n: nat)
    requires Clicks(s, l, mouse, true)
    ensures Clicks(Repeat(s, l, mouse, true, n), l, mouse, true)
    ensures !Repeat(s, l, mouse, true, n).prevLeftDown
    decreases n
  {
    if n > 0 {
      HoldingKeepsClicking(s, l, mouse, n - 1);
    }
  }

  /** A press that starts away from the button does not click when dragged onto it. */
  lemma {:induction false} PressOutsideNeverClicks(s: ButtonState, l: Layout, away: Vec2, mouse: Vec2, n: nat)
    requires !Hover(l, away)
    ensures !Clicks(Repeat(AfterCheck(s, l, away, true), l, mouse, true, n), l, mouse, true)
    ensures Repeat(AfterCheck(s, l, away, true), l, mouse, true, n).prevLeftDown
    decreases n
  {
    if n > 0 {
      PressOutsideNeverClicks(s, l, away, mouse, n - 1);
    }
  }

  /** The start screen's layout and button flags. Textures and drawing are not modelled. */
  class Screen {
    var titlePos: Vec2
    var titleSize: Vec2
    var buttonPos: Vec2
    var buttonSize: Vec2
    var buttonHover: bool
    var prevLeftDown: bool

    function CurrentLayout(): Layout
      reads this
    {
      Layout(titlePos, titleSize, buttonPos, buttonSize)
    }

    function Button(): ButtonState
      reads this
    {
      ButtonState(buttonHover, prevLeftDown)
    }

    constructor (size: Vec2)
      ensures CurrentLayout() == LayoutFor(size)
      ensures Button() == ButtonState(false, false)
    {
      titleSize := Vec2(size.x * TitleRatio.x, size.y * TitleRatio.y);
      buttonSize := Vec2(size.x * ButtonRatio.x, size.y * ButtonRatio.y);
      titlePos := Vec2((size.x - size.x * TitleRatio.x) / 2.0, size.y * TitleTop);
      buttonPos := Vec2((size.x - size.x * ButtonRatio.x) / 2.0, size.y * ButtonTop);
      buttonHover := false;
      prevLeftDown := false;
    }

    /** Recomputes the layout for a new window size, exactly as the constructor does. */
    method Resize(size: Vec2)
      modifies this
      ensures CurrentLayout() == LayoutFor(size)
      ensures Button() == old(Button())
    {
      titleSize := Vec2(size.x * TitleRatio.x, size.y * TitleRatio.y);
      buttonSize := Vec2(size.x * ButtonRatio.x, size.y * ButtonRatio.y);
      titlePos := Vec2((size.x - titleSize.x) / 2.0, size.y * TitleTop);
      buttonPos := Vec2((size.x - buttonSize.x) / 2.0, size.y * ButtonTop);
    }

    method CheckButtonClick(mousePos: Vec2, leftDown: bool) returns (clicked: bool)
      modifies this
      ensures clicked == Clicks(old(Button()), CurrentLayout(), mousePos, leftDown)
      ensures Button() == AfterCheck(old(Button()), CurrentLayout(), mousePos, leftDown)
      ensures CurrentLayout() == old(CurrentLayout())
    {
      var mx := mousePos.x;
      var my := mousePos.y;
      buttonHover := mx >= buttonPos.x && mx <= buttonPos.x + buttonSize.x
        && my >= buttonPos.y && my <= buttonPos.y + buttonSize.y;
      if leftDown && !prevLeftDown && buttonHover {
        return true;
      }
      prevLeftDown := leftDown;
      return false;
    }
  }
}
