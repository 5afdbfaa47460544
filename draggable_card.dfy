/**
 * A person card that can be dragged around and expanded
 * (src/components/DraggableCard.tsx).
 */
module DraggableCard {

  datatype Palette = Palette(bg: string, border: string, shadow: string)

  /** The five card colour schemes, in order. */
  const Colors: seq<Palette> := [
    Palette("#ffd6e8", "#ff6b9d", "#ff4d88"),
    Palette("#d6f0ff", "#6b9dff", "#4d88ff"),
    Palette("#fff4d6", "#ffa56b", "#ff8c4d"),
    Palette("#e6d6ff", "#9d6bff", "#884dff"),
    Palette("#d6ffe6", "#6bff9d", "#4dff88")
  ]

  /** `colors[index % colors.length]` for the card's position `index` in the list. */
  function ColorFor(index: nat): Palette {
    Colors[index % |Colors|]
  }

  /** Cards cycle through the palette: five apart share a colour, neighbours never do. */
  lemma ColorCycle(index: nat)
    ensures ColorFor(index + 5) == ColorFor(index)
    ensures ColorFor(index + 1) != ColorFor(index)
  {
    var k := index % 5;
    assert (index + 1) % 5 == (k + 1) % 5;
    assert (index + 5) % 5 == k;
  }

  /** The stacking level that the card renders with. */
  function EffectiveZ(isDragging: bool, isExpanded: bool, zIndex: int): int {
    if isDragging then 9999 else if isExpanded then 9998 else zIndex
  }

  /**
   * With stacking levels below 9998 on the desk, a dragged card is above an
   * expanded one, which is above every card at rest.
   */
  lemma StackingOrder(expanded: bool, z1: int, z2: int, z3: int)
    requires z1 < 9998 && z2 < 9998 && z3 < 9998
    ensures EffectiveZ(true, expanded, z1) > EffectiveZ(false, true, z2) > EffectiveZ(false, false, z3)
  {
  }

  class Card {
    const index: nat
    const zIndex: int
    var x: int
    var y: int
    var isDragging: bool
    var isExpanded: bool
    /** `dragOffset`: pointer minus position at the press. */
    var offX: int
    var offY: int

    constructor(index: nat, zIndex: int, x0: int, y0: int)
      ensures this.index == index && this.zIndex == zIndex
      ensures x == x0 && y == y0 && !isDragging && !isExpanded
    {
      this.index, this.zIndex := index, zIndex;
      x, y := x0, y0;
      isDragging, isExpanded := false, false;
      offX, offY := 0, 0;
    }

    function Z(): int
      reads this
    {
      EffectiveZ(isDragging, isExpanded, zIndex)
    }

    /** `handleMouseDown`: no drag on an expanded card or on a button; otherwise records the grab offset. */
    method MouseDown(onButton: bool, px: int, py: int) returns (dragStart: bool)
      modifies this`isDragging, this`offX, this`offY
      ensures dragStart == (!old(isExpanded) && !onButton)
      ensures !dragStart ==> isDragging == old(isDragging) && offX == old(offX) && offY == old(offY)
      ensures dragStart ==> isDragging && offX == px - x && offY == py - y
    {
      if isExpanded || onButton {
        return false;
      }
      dragStart := true;
      isDragging := true;
      offX, offY := px - x, py - y;
    }

    /** The mousemove listener, attached while dragging: the card follows pointer minus offset. */
    method MouseMove(px: int, py: int)
      modifies this`x, this`y
      ensures isDragging ==> x == px - offX && y == py - offY
      ensures !isDragging ==> x == old(x) && y == old(y)
    {
      if isDragging {
        x, y := px - offX, py - offY;
      }
    }

    /** The mouseup listener, attached while dragging: ends the drag and reports it. */
    method MouseUp() returns (dragEnd: bool)
      modifies this`isDragging
      ensures dragEnd == old(isDragging) && !isDragging
    {
      dragEnd := isDragging;
      isDragging := false;
    }

    /** `handleCardClick`: toggles the expanded view unless a drag is in progress. */
    method Click()
      modifies this`isExpanded
      ensures isExpanded == (if old(isDragging) then old(isExpanded) else !old(isExpanded))
    {
      if !isDragging {
        isExpanded := !isExpanded;
      }
    }
  }

  /**
   * Dragging a card lifts it to 9999 and drops it back afterwards; the drag
   * ends at pointer minus grab offset.
   */
  method DragCard(index: nat, z: int, x0: int, y0: int, px: int, py: int, qx: int, qy: int)
    returns (during: int, after: int, pos: (int, int))
    ensures during == 9999 && after == z
    ensures pos == (x0 + qx - px, y0 + qy - py)
  {
    var c := new Card(index, z, x0, y0);
    var _ := c.MouseDown(false, px, py);
    c.MouseMove(qx, qy);
    during := c.Z();
    var _ := c.MouseUp();
    after := c.Z();
    pos := (c.x, c.y);
  }

  /** An expanded card cannot be dragged and renders at 9998. */
  method ExpandedStaysPut(index: nat, z: int, x0: int, y0: int, px: int, py: int, qx: int, qy: int)
    returns (started: bool, level: int, pos: (int, int))
    ensures !started && level == 9998 && pos == (x0, y0)
  {
    var c := new Card(index, z, x0, y0);
    c.Click();
    started := c.MouseDown(false, px, py);
    c.MouseMove(qx, qy);
    level := c.Z();
    pos := (c.x, c.y);
  }
}
