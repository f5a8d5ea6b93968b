/**
 * The chapter-2 "vertex colors, further studies" event handler: pressing C cycles a
 * three-valued viewport flag and sets the viewport rectangle that goes with the new value.
 */
module ViewportCycling {
  import opened CArith
  import opened Viewports
  import opened Wrappers

  /** The enumerators of the unscoped `Viewport` enum, with their C++ values. */
  const DEFAULT: int := 0
  const UPPER_HALF: int := 1
  const LOWER_HALF: int := 2

  /** The windowing toolkit's key code for C. */
  const KEY_C: int := 67

  predicate IsEnumerator(v: int)
  {
    v == DEFAULT || v == UPPER_HALF || v == LOWER_HALF
  }

  /** What one key press does: the new flag and the viewport set, if any. */
  datatype Reaction = Reaction(active: int, viewport: Option<Rect>)

  /**
   * The if/else chain of the key handler, starting from the rectangle
   * (0, 0, fw, fh) built from the framebuffer size.
   */
  function OnKey(active: int, key: int, fw: int, fh: int): (r: Reaction)
    ensures key != KEY_C ==> r == Reaction(active, None)
    ensures key == KEY_C ==> IsEnumerator(r.active) && r.viewport.Some?
  {
    if key != KEY_C then Reaction(active, None)
    else if active == DEFAULT then Reaction(UPPER_HALF, Some(Rect(0, 0, fw, fh)))
    else if active == UPPER_HALF then Reaction(LOWER_HALF, Some(Rect(0, Div(fh, 2), fw, Div(fh, 2))))
    else if active == LOWER_HALF then Reaction(DEFAULT, Some(Rect(0, 0, fw, Div(fh, 2))))
    else Reaction(DEFAULT, Some(Rect(0, 0, fw, fh)))
  }

  /** C advances the flag DEFAULT -> UPPER_HALF -> LOWER_HALF -> DEFAULT, with these rectangles. */
  lemma CycleOrder(fw: int, fh: int)
    ensures OnKey(DEFAULT, KEY_C, fw, fh) == Reaction(UPPER_HALF, Some(Rect(0, 0, fw, fh)))
    ensures OnKey(UPPER_HALF, KEY_C, fw, fh) == Reaction(LOWER_HALF, Some(Rect(0, Div(fh, 2), fw, Div(fh, 2))))
    ensures OnKey(LOWER_HALF, KEY_C, fw, fh) == Reaction(DEFAULT, Some(Rect(0, 0, fw, Div(fh, 2))))
  {
  }

  /** Every rectangle the handler sets spans the full width and stays inside the framebuffer. */
  lemma RectsInside(active: int, key: int, fw: int, fh: int)
    requires fw >= 0 && fh >= 0
    ensures var r := OnKey(active, key, fw, fh);
      r.viewport.Some? ==>
        r.viewport.value.x == 0 && r.viewport.value.width == fw && Inside(r.viewport.value, fw, fh)
  {
  }

  /** The fallback branch: a flag outside the enumerators resets to DEFAULT with the full framebuffer. */
  lemma FallbackResets(active: int, fw: int, fh: int)
    requires !IsEnumerator(active)
    ensures OnKey(active, KEY_C, fw, fh) == Reaction(DEFAULT, Some(Rect(0, 0, fw, fh)))
  {
  }

  /** The flag after n presses of C. */
  function PressC(active: int, n: nat, fw: int, fh: int): (a: int)
    decreases n
  {
    if n == 0 then active else PressC(OnKey(active, KEY_C, fw, fh).active, n - 1, fw, fh)
  }

  /** n presses of C from an enumerator advance it by n modulo 3; in particular three presses return to the start. */
  lemma {:induction false} PressesCycle(active: int, n: nat, fw: int, fh: int)
    requires IsEnumerator(active)
    ensures PressC(active, n, fw, fh) == (active + n) % 3
    ensures n % 3 == 0 ==> PressC(active, n, fw, fh) == active
    decreases n
  {
    if n > 0 {
      var next := OnKey(active, KEY_C, fw, fh).active;
      assert next == (active + 1) % 3;
      PressesCycle(next, n - 1, fw, fh);
    }
  }

  /** The key handler's state: the active-viewport flag, initially DEFAULT. */
  class EventHandler {
    var activeViewport: int

    ghost predicate Valid()
      reads this
    {
      IsEnumerator(activeViewport)
    }

    constructor ()
      ensures Valid() && activeViewport == DEFAULT
    {
      activeViewport := DEFAULT;
    }

    /**
     * Handles one key press against a framebuffer of fw x fh pixels; returns the
     * rectangle passed to the viewport call, or None when none is made.
     */
    method KeyPressEvent(key: int, fw: int, fh: int) returns (viewport: Option<Rect>)
      modifies this
      ensures Reaction(activeViewport, viewport) == OnKey(old(activeViewport), key, fw, fh)
      ensures old(Valid()) ==> Valid()
      ensures key != KEY_C ==> activeViewport == old(activeViewport) && viewport == None
    {
      if key == KEY_C {
        var vpv := Rect(0, 0, fw, fh);
        if activeViewport == DEFAULT {
          activeViewport := UPPER_HALF;
          viewport := Some(Rect(vpv.x, vpv.y, vpv.width, vpv.height));
        } else if activeViewport == UPPER_HALF {
          activeViewport := LOWER_HALF;
          viewport := Some(Rect(vpv.x, Div(vpv.height, 2), vpv.width, Div(vpv.height, 2)));
        } else if activeViewport == LOWER_HALF {
          activeViewport := DEFAULT;
          viewport := Some(Rect(vpv.x, vpv.y, vpv.width, Div(vpv.height, 2)));
        } else {
          activeViewport := DEFAULT;
          viewport := Some(Rect(vpv.x, vpv.y, vpv.width, vpv.height));
        }
      } else {
        viewport := None;
      }
    }
  }

  /** Three presses of C on a fresh handler bring the flag back to DEFAULT; the fallback is never taken. */
  method ThreePresses(fw: int, fh: int) returns (h: EventHandler)
    ensures h.Valid() && h.activeViewport == DEFAULT
  {
    h := new EventHandler();
    var v1 := h.KeyPressEvent(KEY_C, fw, fh);
    assert h.activeViewport == UPPER_HALF;
    var v2 := h.KeyPressEvent(KEY_C, fw, fh);
    assert h.activeViewport == LOWER_HALF;
    var v3 := h.KeyPressEvent(KEY_C, fw, fh);
  }
}
