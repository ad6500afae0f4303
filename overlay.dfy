/**
 * The overlay coordinator (class ModEntry in ModEntry.cs): the hovered item
 * is sampled into a field on every Rendering event and read back by the
 * HUD and active-menu render passes, which decide whether to place the
 * curator marker and where.
 */
module Overlay {
  import opened Wrappers
  import opened Config
  import opened Donation
  import opened Hover
  import opened Placement

  /** The small font's measurement of the hovered item's DisplayName and description, in whole pixels. */
  datatype TextSizes = TextSizes(title: Size, text: Size)

  /** What a render pass reads from the host: UI state, received mail, pointer, UI viewport, text sizes. */
  datatype Frame = Frame(ui: HostUi, mail: MailLookup, mouse: Point, viewport: Size, measured: TextSizes)

  function Offset(c: ModConfig): Point
  {
    Point(c.iconOffsetX, c.iconOffsetY)
  }

  /**
   * The marker's position when a menu shows a tooltip: a right-hand corner
   * follows the box when it is moved left, so it ends 8 pixels inside the
   * viewport's right edge; a top corner of a box below the pointer sits 40
   * pixels below the pointer.
   */
  function MenuIconPosition(c: ModConfig, f: Frame): (p: Point)
    ensures !AtLeft(c.iconPosition) ==> p.x - c.iconOffsetX + IconSize(c) + CornerInset <= f.viewport.w
    ensures !AtLeft(c.iconPosition) &&
            f.mouse.x + TooltipPadding + TooltipBox(f.measured.title, f.measured.text, f.mouse, f.viewport).w > f.viewport.w ==>
              p.x - c.iconOffsetX + IconSize(c) + CornerInset == f.viewport.w
    ensures AtLeft(c.iconPosition) &&
            f.mouse.x + TooltipPadding + TooltipBox(f.measured.title, f.measured.text, f.mouse, f.viewport).w <= f.viewport.w ==>
              p.x == f.mouse.x + TooltipPadding + CornerInset + c.iconOffsetX
    ensures !AtBottom(c.iconPosition) &&
            f.mouse.y + TooltipPadding + TooltipBox(f.measured.title, f.measured.text, f.mouse, f.viewport).h <= f.viewport.h ==>
              p.y == f.mouse.y + TooltipPadding + CornerInset + c.iconOffsetY
  {
    var box := TooltipBox(f.measured.title, f.measured.text, f.mouse, f.viewport);
    CornerPosition(c.iconPosition, Offset(c), box, IconSize(c))
  }

  /**
   * The marker's position when no menu is open: beside the pointer, and
   * under FollowCursor only on the right when it fits the viewport width.
   */
  function HudIconPosition(c: ModConfig, f: Frame): (p: Point)
    ensures c.iconPosition != FollowCursor ==> p == Point(f.mouse.x + 48 + c.iconOffsetX, f.mouse.y - 32 + c.iconOffsetY)
    ensures c.iconPosition == FollowCursor && p.x == f.mouse.x + 48 + c.iconOffsetX ==> p.x + IconSize(c) <= f.viewport.w
    ensures c.iconPosition == FollowCursor && p.y == f.mouse.y - 32 + c.iconOffsetY ==> p.y >= 0
  {
    CursorPosition(c.iconPosition, Offset(c), f.mouse, f.viewport.w, IconSize(c))
  }

  /** Menus for which DrawCuratorIcon places a marker by the tooltip. */
  predicate TooltipMenu(m: ActiveMenu)
  {
    m.ItemGrabMenu? || m.GameMenu?
  }

  /** DrawCuratorIcon: by the pointer with no menu, by the tooltip in a grab or game menu, nowhere otherwise. */
  function CuratorIcon(c: ModConfig, f: Frame): (r: Option<DrawRequest>)
    ensures r.Some? <==> f.ui.activeMenu.NoMenu? || TooltipMenu(f.ui.activeMenu)
    ensures f.ui.activeMenu.NoMenu? ==> r == Some(IconRequest(c, HudIconPosition(c, f)))
    ensures TooltipMenu(f.ui.activeMenu) ==> r == Some(IconRequest(c, MenuIconPosition(c, f)))
  {
    var menu := f.ui.activeMenu;
    if !menu.NoMenu? then
      if menu.ItemGrabMenu? || menu.GameMenu? then Some(IconRequest(c, MenuIconPosition(c, f))) else None
    else
      Some(IconRequest(c, HudIconPosition(c, f)))
  }

  /** DrawFishDonationIndicator: the marker for a sampled, un-donated fish, where DrawCuratorIcon puts it. */
  function Indicator(c: ModConfig, hover: Option<Item>, f: Frame): (r: Option<DrawRequest>)
    ensures r.Some? <==>
              IsUnDonatedFish(hover, f.mail) && (f.ui.activeMenu.NoMenu? || TooltipMenu(f.ui.activeMenu))
    ensures r.Some? ==> hover.Some? && IsFish(hover.value) && r == CuratorIcon(c, f)
  {
    if hover.Some? && IsFish(hover.value) && IsUnDonatedFish(hover, f.mail) then CuratorIcon(c, f) else None
  }

  /**
   * OnRenderedHud: a marker is drawn exactly when the display is enabled,
   * no menu is open and the sampled item is an un-donated fish; it goes
   * beside the pointer.
   */
  function HudPass(c: ModConfig, hover: Option<Item>, f: Frame): (r: Option<DrawRequest>)
    ensures r.Some? <==> c.showDonationStatus && f.ui.activeMenu.NoMenu? && IsUnDonatedFish(hover, f.mail)
    ensures r.Some? ==> r.value == IconRequest(c, HudIconPosition(c, f))
  {
    if f.ui.activeMenu.NoMenu? && c.showDonationStatus then Indicator(c, hover, f) else None
  }

  /**
   * OnRenderedActiveMenu: a marker is drawn exactly when the display is
   * enabled, the sampled item is an un-donated fish and the menu is a grab
   * or game menu (or none at all); by the tooltip in the former case.
   */
  function MenuPass(c: ModConfig, hover: Option<Item>, f: Frame): (r: Option<DrawRequest>)
    ensures r.Some? <==>
              c.showDonationStatus && IsUnDonatedFish(hover, f.mail) &&
              (TooltipMenu(f.ui.activeMenu) || f.ui.activeMenu.NoMenu?)
    ensures r.Some? && TooltipMenu(f.ui.activeMenu) ==> r.value == IconRequest(c, MenuIconPosition(c, f))
    ensures r.Some? && f.ui.activeMenu.NoMenu? ==> r.value == IconRequest(c, HudIconPosition(c, f))
  {
    if c.showDonationStatus then Indicator(c, hover, f) else None
  }

  /** A marker in either pass needs all of: display enabled, a sampled item, a fish, not donated. */
  lemma MarkerNeedsEverything(c: ModConfig, hover: Option<Item>, f: Frame)
    requires HudPass(c, hover, f).Some? || MenuPass(c, hover, f).Some?
    ensures c.showDonationStatus && hover.Some? && IsFish(hover.value) && IsUnDonatedFish(hover, f.mail)
  {
  }

  /** Turning the display off suppresses both passes whatever the item is. */
  lemma DisabledDrawsNothing(c: ModConfig, hover: Option<Item>, f: Frame)
    requires !c.showDonationStatus
    ensures HudPass(c, hover, f).None? && MenuPass(c, hover, f).None?
  {
  }

  /** A shop's hovered item is resolved, yet no marker is ever placed in a shop. */
  lemma ShopResolvesButNeverMarks(c: ModConfig, fish: Item, flags: set<string>, mouse: Point, viewport: Size, measured: TextSizes)
    requires c.showDonationStatus && fish.category == FishCategory
    requires DonationFlag(fish.name) !in flags
    ensures var ui := HostUi(ShopMenu(Some(SalableItem(fish))), None);
            var f := Frame(ui, Received(flags), mouse, viewport, measured);
            HoveredItem(ui) == Some(fish) && IsUnDonatedFish(HoveredItem(ui), f.mail) &&
            MenuPass(c, HoveredItem(ui), f).None? && HudPass(c, HoveredItem(ui), f).None?
  {
  }

  /**
   * The carp scenario: in the inventory page with default settings, a carp
   * whose flag is in the mail gets no marker; otherwise the marker sits in
   * the tooltip's top right corner, 8 pixels in from its top and right edges.
   */
  lemma CarpInInventory(flags: set<string>, mouse: Point, viewport: Size, measured: TextSizes)
    ensures var carp := Item(GameObject, "Carp", -4);
            var ui := HostUi(GameMenu(InventoryPage(Some(carp))), None);
            var f := Frame(ui, Received(flags), mouse, viewport, measured);
            var r := MenuPass(Default(), HoveredItem(ui), f);
            var box := TooltipBox(measured.title, measured.text, mouse, viewport);
            ("AquariumDonated:Carp" in flags ==> r.None?) &&
            ("AquariumDonated:Carp" !in flags ==>
               r.Some? && r.value.position.y == box.y + 8 &&
               r.value.position.x + 64 == box.x + box.w - 8)
  {
    CarpFlag();
    DefaultIconSize();
  }

  /**
   * The overlay mod: its configuration, read once at entry, and the item
   * sampled on the latest Rendering event, which both render passes read.
   */
  class ModEntry {
    const config: ModConfig
    var hoverItem: Option<Item>

    /** Entry: the configuration is read; nothing has been sampled yet. */
    constructor (config: ModConfig)
      ensures this.config == config && hoverItem.None?
    {
      this.config := config;
      hoverItem := None;
    }

    /** OnRendering: overwrite the sampled item with this frame's hover. */
    method OnRendering(ui: HostUi)
      modifies this`hoverItem
      ensures hoverItem == HoveredItem(ui)
    {
      hoverItem := GetHoveredItem(ui);
    }

    method OnRenderedHud(f: Frame) returns (drawn: Option<DrawRequest>)
      ensures drawn == HudPass(config, hoverItem, f)
    {
      drawn := None;
      if f.ui.activeMenu.NoMenu? && config.showDonationStatus {
        drawn := DrawFishDonationIndicator(f);
      }
    }

    method OnRenderedActiveMenu(f: Frame) returns (drawn: Option<DrawRequest>)
      ensures drawn == MenuPass(config, hoverItem, f)
    {
      drawn := None;
      if config.showDonationStatus {
        drawn := DrawFishDonationIndicator(f);
      }
    }

    method DrawFishDonationIndicator(f: Frame) returns (drawn: Option<DrawRequest>)
      ensures drawn == Indicator(config, hoverItem, f)
    {
      drawn := None;
      var hoveredItem := hoverItem;
      if hoveredItem.Some? && IsFish(hoveredItem.value) {
        var isUndonated := IsUnDonatedFish(hoveredItem, f.mail);
        if isUndonated {
          drawn := DrawCuratorIcon(f);
        }
      }
    }

    method DrawCuratorIcon(f: Frame) returns (drawn: Option<DrawRequest>)
      ensures drawn == CuratorIcon(config, f)
    {
      drawn := None;
      var menu := f.ui.activeMenu;
      if !menu.NoMenu? {
        if menu.ItemGrabMenu? || menu.GameMenu? {
          var req := DrawIconForMenu(f);
          drawn := Some(req);
        }
      } else {
        var req := DrawIconForHud(f);
        drawn := Some(req);
      }
    }

    /** Size the tooltip, keep it on screen to the right and below, then place the marker in it. */
    method DrawIconForMenu(f: Frame) returns (req: DrawRequest)
      ensures req == IconRequest(config, MenuIconPosition(config, f))
    {
      var titleSize, textSize := f.measured.title, f.measured.text;
      var windowWidth := Max(titleSize.w, textSize.w) + 32;
      var windowHeight := titleSize.h + textSize.h + 32;
      var tooltipX := f.mouse.x + 32;
      var tooltipY := f.mouse.y + 32;
      if tooltipX + windowWidth > f.viewport.w {
        tooltipX := f.viewport.w - windowWidth;
      }
      if tooltipY + windowHeight > f.viewport.h {
        tooltipY := f.mouse.y - windowHeight - 16;
      }
      var iconPosition := CalculateIconPosition(tooltipX, tooltipY, windowWidth, windowHeight);
      req := DrawIcon(iconPosition);
    }

    /** Place the marker beside the pointer, moving it back on screen under FollowCursor. */
    method DrawIconForHud(f: Frame) returns (req: DrawRequest)
      ensures req == IconRequest(config, HudIconPosition(config, f))
    {
      var mouseX, mouseY := f.mouse.x, f.mouse.y;
      var iconPosition;
      if config.iconPosition == FollowCursor {
        iconPosition := Point(mouseX + 48 + config.iconOffsetX, mouseY - 32 + config.iconOffsetY);
        var iconSize := IconSize(config);
        if iconPosition.x + iconSize > f.viewport.w {
          iconPosition := iconPosition.(x := mouseX - 48 + config.iconOffsetX);
        }
        if iconPosition.y < 0 {
          iconPosition := iconPosition.(y := mouseY + 32 + config.iconOffsetY);
        }
      } else {
        iconPosition := Point(mouseX + 48 + config.iconOffsetX, mouseY - 32 + config.iconOffsetY);
      }
      req := DrawIcon(iconPosition);
    }

    /** Pick the configured corner of the tooltip box, then add the offsets. */
    method CalculateIconPosition(tooltipX: int, tooltipY: int, windowWidth: int, windowHeight: int)
      returns (position: Point)
      ensures position == CornerPosition(config.iconPosition, Offset(config), Rect(tooltipX, tooltipY, windowWidth, windowHeight), IconSize(config))
    {
      var iconSize := IconSize(config);
      match config.iconPosition {
        case TopLeft =>
          position := Point(tooltipX + 8, tooltipY + 8);
        case TopRight =>
          position := Point(tooltipX + windowWidth - iconSize - 8, tooltipY + 8);
        case BottomLeft =>
          position := Point(tooltipX + 8, tooltipY + windowHeight - iconSize - 8);
        case BottomRight =>
          position := Point(tooltipX + windowWidth - iconSize - 8, tooltipY + windowHeight - iconSize - 8);
        case FollowCursor =>
          position := Point(tooltipX + windowWidth - iconSize - 8, tooltipY + 8);
      }
      position := position.(x := position.x + config.iconOffsetX);
      position := position.(y := position.y + config.iconOffsetY);
    }

    /** The draw request: background square when configured, then the sprite. */
    method DrawIcon(position: Point) returns (req: DrawRequest)
      ensures req == IconRequest(config, position)
    {
      var background := None;
      if config.showIconBackground {
        var iconSize := IconSize(config);
        background := Some(Rect(position.x - 2, position.y - 2, iconSize + 4, iconSize + 4));
      }
      req := DrawRequest(position, config.iconScale, background);
    }
  }

  /** One frame with no menu open: sample on Rendering, then the HUD pass draws from that sample. */
  method HudFrame(m: ModEntry, ui: HostUi, mail: MailLookup, mouse: Point, viewport: Size, measured: TextSizes)
    returns (drawn: Option<DrawRequest>)
    modifies m`hoverItem
    ensures m.hoverItem == HoveredItem(ui)
    ensures drawn == HudPass(m.config, HoveredItem(ui), Frame(ui, mail, mouse, viewport, measured))
  {
    m.OnRendering(ui);
    drawn := m.OnRenderedHud(Frame(ui, mail, mouse, viewport, measured));
  }
}
