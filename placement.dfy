/**
 * Placement arithmetic (ModEntry.DrawIconForMenu, CalculateIconPosition,
 * DrawIconForHud and DrawIcon in ModEntry.cs): where the tooltip box
 * lies, where the marker goes in it or beside the pointer, and the
 * background square behind the marker. Screen coordinates grow right and
 * down; the viewport is the rectangle from (0, 0) to its width and height.
 */
module Placement {
  import opened Wrappers
  import opened Config

  datatype Point = Point(x: int, y: int)
  datatype Size = Size(w: nat, h: nat)
  datatype Rect = Rect(x: int, y: int, w: int, h: int)

  /** The marker's base sprite is 32 pixels square before scaling. */
  const BaseIconSize: int := 32
  /** Padding the tooltip adds around its text, and its gap from the pointer. */
  const TooltipPadding: int := 32
  /** Inset of the marker from the tooltip's edges. */
  const CornerInset: int := 8

  /** `inner` lies within `outer`, edges included. */
  predicate Contains(outer: Rect, inner: Rect)
  {
    outer.x <= inner.x && inner.x + inner.w <= outer.x + outer.w &&
    outer.y <= inner.y && inner.y + inner.h <= outer.y + outer.h
  }

  function Max(a: int, b: int): (m: int)
    ensures m >= a && m >= b && (m == a || m == b)
  {
    if a >= b then a else b
  }

  /** C#'s `(int)` cast of a real: truncation toward zero. */
  function Truncate(v: real): (r: int)
    ensures 0.0 <= v ==> 0 <= r && r as real <= v < r as real + 1.0
    ensures v < 0.0 ==> r <= 0 && r as real - 1.0 < v <= r as real
  {
    if v >= 0.0 then v.Floor else -((-v).Floor)
  }

  /** `(int)(32 * config.IconScale)`: the marker's side in pixels. */
  function IconSize(c: ModConfig): (s: int)
    ensures 0.0 <= c.iconScale ==> 0 <= s && s as real <= 32.0 * c.iconScale < s as real + 1.0
    ensures c.iconScale < 0.0 ==> s <= 0 && s as real - 1.0 < 32.0 * c.iconScale <= s as real
  {
    Truncate(BaseIconSize as real * c.iconScale)
  }

  /** The default scale of 2.0 gives a 64-pixel marker. */
  lemma DefaultIconSize()
    ensures IconSize(Default()) == 64
  {
  }

  /**
   * The tooltip box DrawIconForMenu assumes: as wide as the wider of title
   * and description and as tall as both, plus padding; placed below right
   * of the pointer, moved left to end at the viewport's right edge when it
   * would overflow it, and moved above the pointer when it would overflow
   * the bottom.
   */
  function TooltipBox(title: Size, text: Size, mouse: Point, viewport: Size): (box: Rect)
    ensures box.w == Max(title.w, text.w) + TooltipPadding
    ensures box.h == title.h + text.h + TooltipPadding
    ensures box.x + box.w <= viewport.w
    ensures box.x <= mouse.x + TooltipPadding
    ensures box.x == mouse.x + TooltipPadding <==> mouse.x + TooltipPadding + box.w <= viewport.w
    ensures box.y == mouse.y + TooltipPadding <==> mouse.y + TooltipPadding + box.h <= viewport.h
    ensures box.y == mouse.y + TooltipPadding ==> box.y + box.h <= viewport.h
    ensures box.y != mouse.y + TooltipPadding ==> box.y + box.h + 16 == mouse.y
  {
    var windowWidth := Max(title.w, text.w) + 32;
    var windowHeight := title.h + text.h + 32;
    var tooltipX := if mouse.x + 32 + windowWidth > viewport.w then viewport.w - windowWidth else mouse.x + 32;
    var tooltipY := if mouse.y + 32 + windowHeight > viewport.h then mouse.y - windowHeight - 16 else mouse.y + 32;
    Rect(tooltipX, tooltipY, windowWidth, windowHeight)
  }

  /** A box that would cross the right edge moves left by exactly its overflow. */
  lemma TooltipShiftsByOverflow(title: Size, text: Size, mouse: Point, viewport: Size)
    requires mouse.x + TooltipPadding + TooltipBox(title, text, mouse, viewport).w > viewport.w
    ensures var box := TooltipBox(title, text, mouse, viewport);
            box.x == mouse.x + TooltipPadding - (mouse.x + TooltipPadding + box.w - viewport.w)
  {
  }

  /** No re-check follows the fallbacks: a wide box can start left of the screen, a tall one above it. */
  lemma TooltipCanLeaveScreen()
    ensures TooltipBox(Size(900, 20), Size(100, 20), Point(10, 10), Size(800, 600)).x < 0
    ensures TooltipBox(Size(100, 300), Size(100, 300), Point(10, 500), Size(800, 600)).y < 0
  {
  }

  /** Corners placed against the tooltip's left edge (the others go against its right edge). */
  predicate AtLeft(p: IconPosition)
  {
    p == TopLeft || p == BottomLeft
  }

  /** Corners placed against the tooltip's bottom edge (the others go against its top edge). */
  predicate AtBottom(p: IconPosition)
  {
    p == BottomLeft || p == BottomRight
  }

  /**
   * CalculateIconPosition: the marker sits in the chosen corner of the
   * tooltip box, 8 pixels in from both edges, and is then moved by the
   * configured offset. FollowCursor, like TopRight, takes the top right.
   */
  function CornerPosition(anchor: IconPosition, offset: Point, box: Rect, iconSize: int): (p: Point)
    ensures AtLeft(anchor) ==> p.x - offset.x == box.x + CornerInset
    ensures !AtLeft(anchor) ==> p.x - offset.x + iconSize == box.x + box.w - CornerInset
    ensures !AtBottom(anchor) ==> p.y - offset.y == box.y + CornerInset
    ensures AtBottom(anchor) ==> p.y - offset.y + iconSize == box.y + box.h - CornerInset
  {
    var corner :=
      match anchor
      case TopLeft => Point(box.x + 8, box.y + 8)
      case TopRight => Point(box.x + box.w - iconSize - 8, box.y + 8)
      case BottomLeft => Point(box.x + 8, box.y + box.h - iconSize - 8)
      case BottomRight => Point(box.x + box.w - iconSize - 8, box.y + box.h - iconSize - 8)
      case FollowCursor => Point(box.x + box.w - iconSize - 8, box.y + 8);
    Point(corner.x + offset.x, corner.y + offset.y)
  }

  /** With no offset, a marker that fits with its insets lies inside the tooltip box. */
  lemma CornerInsideTooltip(anchor: IconPosition, box: Rect, iconSize: nat)
    requires box.w >= iconSize + 2 * CornerInset && box.h >= iconSize + 2 * CornerInset
    ensures var p := CornerPosition(anchor, Point(0, 0), box, iconSize);
            Contains(box, Rect(p.x, p.y, iconSize, iconSize))
  {
  }

  /** Inside a tooltip, FollowCursor means TopRight. */
  lemma FollowCursorInTooltipIsTopRight(offset: Point, box: Rect, iconSize: int)
    ensures CornerPosition(FollowCursor, offset, box, iconSize) == CornerPosition(TopRight, offset, box, iconSize)
  {
  }

  /** The offset moves the marker rigidly: the corner is computed first and shifted afterwards. */
  lemma CornerOffsetIsTranslation(anchor: IconPosition, offset: Point, box: Rect, iconSize: int)
    ensures var p := CornerPosition(anchor, offset, box, iconSize);
            var q := CornerPosition(anchor, Point(0, 0), box, iconSize);
            p == Point(q.x + offset.x, q.y + offset.y)
  {
  }

  /**
   * DrawIconForHud: the marker goes 48 pixels right of and 32 above the
   * pointer, plus the offset. Under FollowCursor only, it moves to 48 left
   * of the pointer when its right edge would pass the viewport width, and
   * to 32 below it when its top would be above the screen; the two checks
   * are independent.
   */
  function CursorPosition(anchor: IconPosition, offset: Point, mouse: Point, viewportWidth: int, iconSize: int): (p: Point)
    ensures anchor != FollowCursor ==> p == Point(mouse.x + 48 + offset.x, mouse.y - 32 + offset.y)
    ensures anchor == FollowCursor ==>
              (p.x - offset.x == mouse.x + 48 && p.x + iconSize <= viewportWidth) ||
              (p.x - offset.x == mouse.x - 48 && mouse.x + 48 + offset.x + iconSize > viewportWidth)
    ensures anchor == FollowCursor ==>
              (p.y - offset.y == mouse.y - 32 && p.y >= 0) ||
              (p.y - offset.y == mouse.y + 32 && mouse.y - 32 + offset.y < 0)
  {
    var right := Point(mouse.x + 48 + offset.x, mouse.y - 32 + offset.y);
    if anchor == FollowCursor then
      var x := if right.x + iconSize > viewportWidth then mouse.x - 48 + offset.x else right.x;
      var y := if right.y < 0 then mouse.y + 32 + offset.y else right.y;
      Point(x, y)
    else
      right
  }

  /** A pointer at (780, 10) on an 800-wide screen: a 64-pixel marker is mirrored left and flipped below. */
  lemma CursorMirrorExample()
    ensures CursorPosition(FollowCursor, Point(0, 0), Point(780, 10), 800, 64) == Point(732, 42)
    ensures CursorPosition(TopRight, Point(0, 0), Point(780, 10), 800, 64) == Point(828, -22)
  {
  }

  /** Under FollowCursor the marker is the pointer's upper-right slot reflected through the pointer, axis by axis. */
  lemma CursorMirrorIsReflection(offset: Point, mouse: Point, viewportWidth: int, iconSize: int)
    ensures var p := CursorPosition(FollowCursor, offset, mouse, viewportWidth, iconSize);
            (p.x - offset.x - mouse.x == 48 || p.x - offset.x - mouse.x == -48) &&
            (p.y - offset.y - mouse.y == -32 || p.y - offset.y - mouse.y == 32)
  {
  }

  /** DrawIcon's background: the marker's square grown by a 2-pixel border on every side. */
  function BackgroundRect(p: Point, iconSize: int): (r: Rect)
    ensures r.w == r.h
    ensures r.x + 2 == p.x && r.y + 2 == p.y
    ensures r.x + r.w == p.x + iconSize + 2 && r.y + r.h == p.y + iconSize + 2
  {
    Rect(p.x - 2, p.y - 2, iconSize + 4, iconSize + 4)
  }

  /** The background square covers the marker. */
  lemma BackgroundCoversIcon(p: Point, iconSize: nat)
    ensures Contains(BackgroundRect(p, iconSize), Rect(p.x, p.y, iconSize, iconSize))
  {
  }

  /**
   * What DrawIcon asks the renderer for: the marker sprite at `position`
   * drawn at the configured scale, and the translucent background square
   * when ShowIconBackground is set.
   */
  datatype DrawRequest = DrawRequest(position: Point, scale: real, background: Option<Rect>)

  /** DrawIcon: the sprite where asked, the background only when configured. */
  function IconRequest(c: ModConfig, position: Point): (req: DrawRequest)
    ensures req.position == position && req.scale == c.iconScale
    ensures req.background.Some? <==> c.showIconBackground
    ensures c.showIconBackground ==> req.background == Some(BackgroundRect(position, IconSize(c)))
    ensures req.background.Some? ==> Contains(req.background.value, Rect(position.x, position.y, IconSize(c), IconSize(c)))
  {
    var background := if c.showIconBackground then Some(BackgroundRect(position, IconSize(c))) else None;
    DrawRequest(position, c.iconScale, background)
  }
}
