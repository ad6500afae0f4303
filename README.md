# Aquarium fish indicator overlay — Dafny model

This project models the core of a Stardew Valley mod that marks fish not
yet donated to the aquarium. On every frame the mod samples the item under
the pointer. If that item is an un-donated fish, it draws a small curator
icon: inside the item's tooltip when a game menu or a chest menu is open,
or beside the pointer when no menu is open.

The model has six modules, one per concern of `ModEntry.cs` and `ModConfig.cs`:

- `Config` (config.dfy): the `ModConfig` record with its defaults, and the
  `IconPosition` enum.
- `Donation` (donation.dfy): `Utils.IsUnDonatedFish`, `IsFish` and the
  mail-flag key `"AquariumDonated:" + name` with its spaces removed.
- `Hover` (hover.dfy): `GetHoveredItem` over a datatype of the active UI
  surface. It is a method that reassigns a local through four independent
  checks. The toolbar scan is a loop. Both are proved equal to the
  functions `HoveredItem` and `FirstToolbarHover`.
- `Placement` (placement.dfy): the tooltip box, corner placement, pointer
  placement with edge mirroring, the background square and the draw
  request, as functions whose contracts state the geometry.
- `Overlay` (overlay.dfy): the `ModEntry` class. Its `hoverItem` field is
  overwritten by `OnRendering` and read by the two render passes. Each
  handler is proved equal to a specification function:
  - `OnRenderedHud` to `HudPass` and `OnRenderedActiveMenu` to `MenuPass`;
  - `DrawFishDonationIndicator` to `Indicator`;
  - `DrawCuratorIcon` to `CuratorIcon`;
  - `DrawIconForMenu` and `DrawIconForHud` to `IconRequest` at
    `MenuIconPosition` and `HudIconPosition`;
  - `CalculateIconPosition` to `CornerPosition`;
  - `DrawIcon` to `IconRequest`.

  The contracts of those functions, and the lemmas about them, state when
  a marker appears and where it goes.
- `Wrappers` (wrappers.dfy): an `Option` type that stands for C# `null`.

Host state is passed in as values, not read from globals:

- the active menu and on-screen menus (`HostUi`);
- the master player's received mail (`MailLookup`);
- the pointer position, the UI viewport size and the measured text sizes
  (`Frame`).

A render pass returns the draw request it would issue (`Option<DrawRequest>`),
where `None` means nothing is drawn.

The model follows the code as written:

- The hover is recomputed on every Rendering event; nothing memoises it by
  pointer position.
- The tooltip box has no minimum size.
- When the box overflows the bottom, it moves above the pointer, to
  `mouseY - height - 16`. It is not clamped to the screen.
- Nothing re-checks the fallback positions, so the box or the marker can
  still be off screen (`Placement.TooltipCanLeaveScreen`).
- Only the space character is removed from the name. Other whitespace stays.
- A shop's hovered item is resolved, but no marker is ever placed in a shop
  (`Overlay.ShopResolvesButNeverMarks`).
- If the texture fails to load, the entry point fails. Nothing degrades
  gracefully.

## Model

| member | source | states |
|---|---|---|
| `Config.FromOrdinal` | ModConfig.cs:19-26 | a member exists exactly for the integers 0..4, and Ordinal maps it back to that integer |
| `Config.Ordinal` | ModConfig.cs:19-26 | every member's integer value is below 5 |
| `Config.OrdinalRoundTrip` | ModConfig.cs:19-26 | integer value and member convert back and forth without loss |
| `Config.Default` | ModConfig.cs:5-16 | ShowDonationStatus and ShowIconBackground default to true, IconPosition to TopRight, both offsets to 0, IconScale to 2.0 |
| `Donation.RemoveSpaces` | ModEntry.cs:28 | the result holds no space and is no longer than the name |
| `Donation.RemoveSpacesKeeps` | ModEntry.cs:28 | every character other than a space is kept as often as it occurs |
| `Donation.RemoveSpacesAppend` | ModEntry.cs:28 | space removal distributes over concatenation, so kept characters stay in order |
| `Donation.RemoveSpacesFixed` | ModEntry.cs:28 | a name is unchanged exactly when it holds no space |
| `Donation.DonationFlag` | ModEntry.cs:28 | the flag starts with "AquariumDonated:", is as long as that prefix plus the stripped name, and holds no space |
| `Donation.DonationFlagSame` | ModEntry.cs:28 | two names share a flag exactly when they agree once spaces are removed |
| `Donation.CarpFlag` | ModEntry.cs:28 | the carp's flag is "AquariumDonated:Carp" |
| `Donation.TwoWordFlag` | ModEntry.cs:28 | a two-word name such as "Sea Cucumber" loses the space between its words |
| `Donation.IsFish` | ModEntry.cs:94-105 | both branches reduce to category == -4 |
| `Donation.IsUnDonatedFish` | ModEntry.cs:18-36 | false for a null item, for any category other than -4, and when the mail lookup fails; for a fish it is true exactly when the flag is absent from the mail |
| `Donation.UnDonatedIsFish` | ModEntry.cs:18-23 | only fish are ever reported un-donated |
| `Donation.SpacesDoNotMatter` | ModEntry.cs:28-29 | names that differ only in spaces have the same donation status |
| `Donation.CarpScenario` | ModEntry.cs:18-36 | a carp is un-donated exactly when "AquariumDonated:Carp" is not in the mail, and never when the lookup fails |
| `Hover.FirstToolbarHover` | ModEntry.cs:114-117 | a hover it returns is the hoverItem of some toolbar in the list |
| `Hover.FirstToolbarHoverIsFirst` | ModEntry.cs:112-118 | the toolbar scan finds nothing exactly when no toolbar shows a hover, and otherwise returns the hover of the first toolbar that shows one |
| `Hover.HoveredItem` | ModEntry.cs:107-142 | no menu and a null on-screen list give nothing; a grab menu gives its hoveredItem; a game menu on an inventory page gives that page's hoveredItem, and on any other page nothing; a shop gives an item only when its salable is that item; any other menu gives nothing |
| `Hover.HoveredItemSource` | ModEntry.cs:107-142 | with no menu, the item is the hover of the first on-screen toolbar that shows one, and there is none exactly when no toolbar shows one or the list is null; a game menu on an inventory page gives that page's hoveredItem, on another page nothing; an unknown menu resolves nothing; a shop resolves only a salable that is an item |
| `Hover.ScanToolbars` | ModEntry.cs:112-118 | the loop returns the first non-null toolbar hover |
| `Hover.GetHoveredItem` | ModEntry.cs:107-142 | the chain of independent checks returns the item of the one surface that applies |
| `Placement.Truncate` | ModEntry.cs:214 | the `(int)` cast truncates toward zero |
| `Placement.IconSize` | ModEntry.cs:214 | the icon side is 32 × IconScale truncated toward zero |
| `Placement.DefaultIconSize` | ModEntry.cs:236 | the default scale gives a 64-pixel icon |
| `Placement.TooltipBox` | ModEntry.cs:171-189 | the width is the wider text plus 32 and the height is both heights plus 32; the right edge never passes the viewport width, and the box starts 32 right of the pointer exactly when it fits; the box starts 32 below the pointer exactly when it fits, and otherwise ends 16 above the pointer |
| `Placement.TooltipShiftsByOverflow` | ModEntry.cs:182-185 | a box that would overflow the right edge moves left by exactly the overflow |
| `Placement.TooltipCanLeaveScreen` | ModEntry.cs:182-189 | the fallbacks are not re-checked: a wide box can start left of 0, a tall one above 0 |
| `Placement.CornerPosition` | ModEntry.cs:233-262 | before the offset, the icon is 8 px in from the left or right edge and from the top or bottom edge of the tooltip, as the corner says; FollowCursor takes the top right |
| `Placement.CornerInsideTooltip` | ModEntry.cs:238-255 | with zero offsets and a box at least icon size + 16 each way, the icon lies inside the tooltip box |
| `Placement.FollowCursorInTooltipIsTopRight` | ModEntry.cs:252-254 | inside a tooltip, FollowCursor places the icon as TopRight does |
| `Placement.CornerOffsetIsTranslation` | ModEntry.cs:257-259 | the offsets are added after the corner is chosen |
| `Placement.CursorPosition` | ModEntry.cs:205-228 | any IconPosition other than FollowCursor gives (mx+48+ox, my−32+oy). FollowCursor keeps the right side only when the icon's right edge fits the viewport width, else moves 48 left of the pointer. It keeps the upper side only when the top is on screen, else moves 32 below the pointer |
| `Placement.CursorMirrorExample` | ModEntry.cs:205-228 | with width 800, pointer (780,10), zero offsets and a 64 px icon, FollowCursor gives (732, 42) and TopRight gives the unadjusted (828, −22) |
| `Placement.CursorMirrorIsReflection` | ModEntry.cs:209-221 | under FollowCursor the displacement from the pointer is ±48 horizontally and ∓32 vertically |
| `Placement.BackgroundRect` | ModEntry.cs:269-274 | the background is a square that extends 2 px past the icon on every side |
| `Placement.BackgroundCoversIcon` | ModEntry.cs:269-274 | the background square contains the icon |
| `Placement.IconRequest` | ModEntry.cs:264-289 | the sprite goes at the given position and scale; a background is present exactly when ShowIconBackground is set, and it is the 2-pixel-border square BackgroundRect, which covers the icon |
| `Overlay.MenuIconPosition` | ModEntry.cs:171-192 | a right-hand corner always ends at least 8 px inside the viewport's right edge, and exactly 8 px when the box was moved left; a left corner of an unmoved box is 40 px right of the pointer; a top corner of a box below the pointer is 40 px below it (all before the offset) |
| `Overlay.HudIconPosition` | ModEntry.cs:205-228 | other IconPositions give (mx+48+ox, my−32+oy); under FollowCursor the right-hand slot is kept only when the icon fits the viewport width, and the upper slot only when it is on screen |
| `Overlay.Indicator` | ModEntry.cs:78-92 | a marker exists exactly when the sampled item is an un-donated fish and no menu, a grab menu or a game menu is open; it is the one DrawCuratorIcon places |
| `Overlay.CuratorIcon` | ModEntry.cs:143-160 | an icon is placed exactly when no menu is open (beside the pointer) or the menu is an ItemGrabMenu or GameMenu (by the tooltip) |
| `Overlay.HudPass` | ModEntry.cs:63-69 | the HUD pass draws exactly when the display is enabled, no menu is open and the sampled item is an un-donated fish, and it draws beside the pointer |
| `Overlay.MenuPass` | ModEntry.cs:71-92 | the menu pass draws exactly when the display is enabled, the sampled item is an un-donated fish and the menu is a grab or game menu (or none), and it draws by the tooltip in a grab or game menu and beside the pointer with no menu |
| `Overlay.MarkerNeedsEverything` | ModEntry.cs:65-90 | any marker needs the display enabled, a sampled item, a fish and no donation flag |
| `Overlay.DisabledDrawsNothing` | ModEntry.cs:65-75 | with ShowDonationStatus off neither pass draws |
| `Overlay.ShopResolvesButNeverMarks` | ModEntry.cs:134-159 | a shop's hovered fish is resolved and un-donated, yet neither pass places a marker |
| `Overlay.CarpInInventory` | ModEntry.cs:80-90 | with default settings a donated carp gets no marker; an un-donated one gets it 8 px in from the tooltip's top and right edges |
| `Overlay.ModEntry.constructor` | ModEntry.cs:45-48 | the configuration is stored and nothing has been sampled yet |
| `Overlay.ModEntry.OnRendering` | ModEntry.cs:58-61 | the sampled field is overwritten with this frame's hover |
| `Overlay.ModEntry.OnRenderedHud` | ModEntry.cs:63-69 | the result is the HUD pass over the sampled item |
| `Overlay.ModEntry.OnRenderedActiveMenu` | ModEntry.cs:71-77 | the result is the menu pass over the sampled item |
| `Overlay.ModEntry.DrawFishDonationIndicator` | ModEntry.cs:78-92 | an icon is placed only for a sampled un-donated fish, as DrawCuratorIcon decides |
| `Overlay.ModEntry.DrawCuratorIcon` | ModEntry.cs:143-160 | the method computes CuratorIcon |
| `Overlay.ModEntry.DrawIconForMenu` | ModEntry.cs:162-195 | the step-by-step tooltip placement yields the corner position in TooltipBox |
| `Overlay.ModEntry.DrawIconForHud` | ModEntry.cs:197-231 | the step-by-step adjustments yield CursorPosition |
| `Overlay.ModEntry.CalculateIconPosition` | ModEntry.cs:233-262 | the switch plus offsets yields CornerPosition |
| `Overlay.ModEntry.DrawIcon` | ModEntry.cs:264-289 | the request issued is IconRequest |
| `Overlay.HudFrame` | ModEntry.cs:58-69 | a frame samples on Rendering, which leaves this frame's hover in the field, before the HUD pass reads the sample |

## Left out

- Event registration with the host, texture loading and the actual sprite
  and rectangle drawing (ModEntry.cs:45-56, 270-288) are foreign calls. A
  render pass returns the request it would draw instead. The texture is
  assumed loaded, because a failed load makes the entry point throw.
- 32-bit `int` overflow is not modelled. The source's positions, sizes
  and offsets are C# `int`s, which wrap on overflow. The model's integers
  are unbounded, so `TooltipBox`, `CornerPosition`, `CursorPosition`,
  `BackgroundRect` and the `DrawIcon*` methods agree with the source only
  while every intermediate sum stays within −2^31..2^31−1. For example, an
  IconOffsetX of 2147483647 wraps in the source and then takes different
  FollowCursor branches than the model.
- Floating point is not modelled. `IconScale` is an exact `real`, and
  `(int)(32 * IconScale)` is truncation toward zero of the exact product.
- The font's `MeasureString` results are whole-pixel inputs. The source
  truncates the sum of the two float heights, not each height separately.
- `Vector2` positions are integer pairs. Every position the source computes
  is integral.
- The globals `Game1.activeClickableMenu`, `Game1.onScreenMenus`, the
  received mail, `Game1.uiViewport` and the mouse position are inputs.
- The exception the mail lookup can raise (no master player, a null name)
  is the `LookupFailed` input.
- A menu's runtime class hierarchy is reduced to the five cases the code
  tests. A null entry in the on-screen menu list is an `OtherOnScreenMenu`.
- `UseTextIndicator`, `UseIconIndicator`, `DonatedText` and
  `NotDonatedText` (ModConfig.cs:6-9) are never read, so they are not modelled.
- `IconPosition` values outside the five declared members are not modelled.
  C# allows any integer there. `CalculateIconPosition` would treat one as
  TopRight, and `DrawIconForHud` would treat it like any other member that
  is not FollowCursor.
- Render order is fixed by the host. The model does not show that the
  Rendering event comes before the render passes within a frame. It only
  shows what follows when it does (`Overlay.HudFrame`).
