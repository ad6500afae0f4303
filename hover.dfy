/**
 * Hover resolution (ModEntry.GetHoveredItem in ModEntry.cs): which item the
 * pointer is over, read from whichever UI surface is active this frame.
 */
module Hover {
  import opened Wrappers
  import opened Donation

  /** An entry of Game1.onScreenMenus: a Toolbar with its hoverItem, or anything else (including null). */
  datatype OnScreenMenu = Toolbar(hoverItem: Option<Item>) | OtherOnScreenMenu

  /** The page a GameMenu currently shows. */
  datatype GameMenuPage = InventoryPage(hoveredItem: Option<Item>) | OtherPage

  /** A shop's hovered ISalable: either an Item or some other salable thing. */
  datatype Salable = SalableItem(item: Item) | OtherSalable

  /** Game1.activeClickableMenu, by runtime class. */
  datatype ActiveMenu =
    | NoMenu
    | GameMenu(currentPage: GameMenuPage)
    | ItemGrabMenu(hoveredItem: Option<Item>)
    | ShopMenu(hoveredSalable: Option<Salable>)
    | OtherMenu

  /** The host UI state GetHoveredItem reads: the active menu and the (nullable) on-screen menu list. */
  datatype HostUi = HostUi(activeMenu: ActiveMenu, onScreenMenus: Option<seq<OnScreenMenu>>)

  /** A toolbar that reports a non-null hoverItem. */
  predicate ShowsHover(m: OnScreenMenu)
  {
    m.Toolbar? && m.hoverItem.Some?
  }

  /** `OfType<Toolbar>().Select(tb => tb.hoverItem).FirstOrDefault(hi => hi is not null)`. */
  function FirstToolbarHover(menus: seq<OnScreenMenu>): (r: Option<Item>)
    ensures r.Some? ==> exists i :: 0 <= i < |menus| && menus[i] == Toolbar(r)
  {
    if menus == [] then None
    else if ShowsHover(menus[0]) then menus[0].hoverItem
    else FirstToolbarHover(menus[1..])
  }

  /**
   * The toolbar scan finds nothing exactly when no toolbar shows a hover,
   * and otherwise returns the hover of the first toolbar that shows one.
   */
  lemma {:induction false} FirstToolbarHoverIsFirst(menus: seq<OnScreenMenu>)
    ensures FirstToolbarHover(menus).None? <==> forall i :: 0 <= i < |menus| ==> !ShowsHover(menus[i])
    ensures FirstToolbarHover(menus).Some? ==>
              exists i :: 0 <= i < |menus| && ShowsHover(menus[i]) &&
                          menus[i].hoverItem == FirstToolbarHover(menus) &&
                          forall j :: 0 <= j < i ==> !ShowsHover(menus[j])
  {
    if menus != [] && !ShowsHover(menus[0]) {
      var rest := menus[1..];
      FirstToolbarHoverIsFirst(rest);
      if FirstToolbarHover(rest).Some? {
        var i :| 0 <= i < |rest| && ShowsHover(rest[i]) && rest[i].hoverItem == FirstToolbarHover(rest) &&
                 forall j :: 0 <= j < i ==> !ShowsHover(rest[j]);
        assert menus[i + 1] == rest[i];
        assert forall j :: 0 <= j < i + 1 ==> !ShowsHover(menus[j]) by {
          forall j | 0 <= j < i + 1 ensures !ShowsHover(menus[j]) {
            if j > 0 { assert menus[j] == rest[j - 1]; }
          }
        }
      } else {
        forall i | 0 <= i < |menus| ensures !ShowsHover(menus[i]) {
          if i > 0 { assert menus[i] == rest[i - 1]; }
        }
      }
    }
  }

  /** The item under the pointer, by active UI surface; None when no surface applies. */
  function HoveredItem(ui: HostUi): (r: Option<Item>)
    ensures ui.activeMenu.NoMenu? && ui.onScreenMenus.None? ==> r.None?
    ensures ui.activeMenu.ItemGrabMenu? ==> r == ui.activeMenu.hoveredItem
    ensures ui.activeMenu.GameMenu? && r.Some? ==> ui.activeMenu.currentPage == InventoryPage(r)
    ensures ui.activeMenu.GameMenu? && ui.activeMenu.currentPage.InventoryPage? ==> r == ui.activeMenu.currentPage.hoveredItem
    ensures ui.activeMenu.ShopMenu? && r.Some? ==> ui.activeMenu.hoveredSalable == Some(SalableItem(r.value))
    ensures ui.activeMenu.OtherMenu? ==> r.None?
  {
    match ui.activeMenu
    case NoMenu => if ui.onScreenMenus.Some? then FirstToolbarHover(ui.onScreenMenus.value) else None
    case GameMenu(page) => if page.InventoryPage? then page.hoveredItem else None
    case ItemGrabMenu(hovered) => hovered
    case ShopMenu(salable) => if salable.Some? && salable.value.SalableItem? then Some(salable.value.item) else None
    case OtherMenu => None
  }

  /**
   * Where a resolved hover comes from: a toolbar's hover when no menu is
   * open, the inventory page of a game menu, a grab menu, or a shop's
   * salable when that is an item. Any other menu, and a game menu on any
   * other page, resolves nothing.
   */
  lemma HoveredItemSource(ui: HostUi)
    ensures ui.activeMenu.OtherMenu? ==> HoveredItem(ui).None?
    ensures ui.activeMenu.GameMenu? && !ui.activeMenu.currentPage.InventoryPage? ==> HoveredItem(ui).None?
    ensures ui.activeMenu.NoMenu? && HoveredItem(ui).Some? ==>
              ui.onScreenMenus.Some? &&
              exists i :: 0 <= i < |ui.onScreenMenus.value| && ShowsHover(ui.onScreenMenus.value[i]) &&
                          ui.onScreenMenus.value[i].hoverItem == HoveredItem(ui) &&
                          forall j :: 0 <= j < i ==> !ShowsHover(ui.onScreenMenus.value[j])
    ensures ui.activeMenu.GameMenu? && ui.activeMenu.currentPage.InventoryPage? ==>
              HoveredItem(ui) == ui.activeMenu.currentPage.hoveredItem
    ensures ui.activeMenu.NoMenu? ==>
              (HoveredItem(ui).None? <==>
                 ui.onScreenMenus.None? ||
                 forall i :: 0 <= i < |ui.onScreenMenus.value| ==> !ShowsHover(ui.onScreenMenus.value[i]))
    ensures ui.activeMenu.ShopMenu? ==>
              (HoveredItem(ui).Some? <==>
                 ui.activeMenu.hoveredSalable.Some? && ui.activeMenu.hoveredSalable.value.SalableItem?)
  {
    if ui.activeMenu.NoMenu? && ui.onScreenMenus.Some? {
      FirstToolbarHoverIsFirst(ui.onScreenMenus.value);
    }
  }

  /** The LINQ toolbar scan as a loop over the on-screen menus. */
  method ScanToolbars(menus: seq<OnScreenMenu>) returns (found: Option<Item>)
    ensures found == FirstToolbarHover(menus)
  {
    var i := 0;
    while i < |menus|
      invariant 0 <= i <= |menus|
      invariant FirstToolbarHover(menus) == FirstToolbarHover(menus[i..])
    {
      if menus[i].Toolbar? && menus[i].hoverItem.Some? {
        return menus[i].hoverItem;
      }
      assert menus[i..][1..] == menus[i + 1..];
      i := i + 1;
    }
    return None;
  }

  /** GetHoveredItem: a local reassigned by four independent checks, one per surface. */
  method GetHoveredItem(ui: HostUi) returns (hoverItem: Option<Item>)
    ensures hoverItem == HoveredItem(ui)
  {
    hoverItem := None;
    var menu := ui.activeMenu;
    if menu.NoMenu? && ui.onScreenMenus.Some? {
      hoverItem := ScanToolbars(ui.onScreenMenus.value);
    }
    if menu.GameMenu? && menu.currentPage.InventoryPage? {
      hoverItem := menu.currentPage.hoveredItem;
    }
    if menu.ItemGrabMenu? {
      hoverItem := menu.hoveredItem;
    }
    if menu.ShopMenu? {
      if menu.hoveredSalable.Some? && menu.hoveredSalable.value.SalableItem? {
        hoverItem := Some(menu.hoveredSalable.value.item);
      }
    }
  }
}
