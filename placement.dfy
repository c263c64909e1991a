// Tooltip placement (showTooltip, language.js:659-675, and the mousemove
// handler, language.js:750-766; the same arithmetic is at index.js:60-76 and
// index.js:150-167). All lengths are CSS pixels, kept as reals.
module Placement {

  /** The part of the hovered element's bounding rectangle the placement
      reads. */
  datatype Rect = Rect(top: real, bottom: real, left: real, width: real)

  /** The stored `top` (document coordinates) and `left` style values. */
  datatype Position = Position(top: real, left: real)

  /** 4 pixels above the element; flipped to 4 pixels below it only when the
      tooltip would start above the viewport. */
  function ViewportTop(rect: Rect, height: real): (top: real)
    ensures rect.top - height - 4.0 >= 0.0 ==> top + height + 4.0 == rect.top
    ensures rect.top - height - 4.0 < 0.0 ==> top == rect.bottom + 4.0
  {
    var above := rect.top - height - 4.0;
    if above < 0.0 then rect.bottom + 4.0 else above
  }

  /** Centred on the element. Moved to 8 when it would start left of the
      viewport, otherwise pulled in to end 8 pixels short of the right edge
      when it would overflow it, otherwise kept. */
  function ClampedLeft(rect: Rect, width: real, innerWidth: real): (left: real)
    ensures var centred := rect.left + rect.width / 2.0 - width / 2.0;
            && (centred < 0.0 ==> left == 8.0)
            && (0.0 <= centred && centred + width > innerWidth ==> left + width + 8.0 == innerWidth)
            && (0.0 <= centred && centred + width <= innerWidth ==> left == centred)
  {
    var centred := rect.left + rect.width / 2.0 - width / 2.0;
    if centred < 0.0 then 8.0
    else if centred + width > innerWidth then innerWidth - width - 8.0
    else centred
  }

  /** Where the tooltip goes: `top` is stored in document coordinates, so
      the vertical scroll offset is added. */
  function Place(rect: Rect, width: real, height: real, innerWidth: real, scrollY: real): (p: Position)
    ensures p.top - scrollY == ViewportTop(rect, height)
    ensures p.left == ClampedLeft(rect, width, innerWidth)
  {
    Position(ViewportTop(rect, height) + scrollY, ClampedLeft(rect, width, innerWidth))
  }

  /** The tooltip never starts above the viewport, unless the element itself
      ends more than 4 pixels above it. */
  lemma TopInsideViewport(rect: Rect, height: real)
    requires rect.bottom >= -4.0
    ensures ViewportTop(rect, height) >= 0.0
  {
  }

  /** When it is at least 8 pixels narrower than the viewport, the tooltip
      lies wholly inside the viewport horizontally. */
  lemma LeftInsideViewport(rect: Rect, width: real, innerWidth: real)
    requires width >= 0.0 && width + 8.0 <= innerWidth
    ensures var left := ClampedLeft(rect, width, innerWidth);
            0.0 <= left && left + width <= innerWidth
  {
  }

  /** The horizontal adjustment does not push a tooltip that starts between
      0 and 8 pixels to 8: only a negative start is raised. */
  lemma SmallLeftNotRaised()
    ensures ClampedLeft(Rect(0.0, 10.0, 4.0, 100.0), 100.0, 1000.0) == 4.0
  {
  }

  /** Nor does it keep the 8-pixel margin on the right: a tooltip that ends
      between `innerWidth - 8` and `innerWidth` stays where it is. */
  lemma RightMarginNotKept()
    ensures ClampedLeft(Rect(0.0, 10.0, 896.0, 100.0), 100.0, 1000.0) == 896.0
  {
  }
}
