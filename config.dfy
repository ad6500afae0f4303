/**
 * The mod's settings record (ModConfig.cs): the options the overlay reads,
 * with their default values, and the IconPosition enum that placement
 * dispatches on.
 */
module Config {
  import opened Wrappers

  /** Where the marker goes: the five members of the C# enum, in declaration order. */
  datatype IconPosition = TopLeft | TopRight | BottomLeft | BottomRight | FollowCursor

  /** The integer C# gives each enum member: its declaration index. */
  function Ordinal(p: IconPosition): (n: nat)
    ensures n < 5
  {
    match p
    case TopLeft => 0
    case TopRight => 1
    case BottomLeft => 2
    case BottomRight => 3
    case FollowCursor => 4
  }

  /** The enum member with integer value `n`, if one is declared. */
  function FromOrdinal(n: int): (r: Option<IconPosition>)
    ensures r.Some? <==> 0 <= n < 5
    ensures r.Some? ==> Ordinal(r.value) == n
  {
    if n == 0 then Some(TopLeft)
    else if n == 1 then Some(TopRight)
    else if n == 2 then Some(BottomLeft)
    else if n == 3 then Some(BottomRight)
    else if n == 4 then Some(FollowCursor)
    else None
  }

  /** Ordinal and FromOrdinal are inverse: the enum has exactly the five members 0..4. */
  lemma OrdinalRoundTrip(p: IconPosition)
    ensures FromOrdinal(Ordinal(p)) == Some(p)
  {
  }

  /**
   * The options the overlay reads. UseTextIndicator, UseIconIndicator,
   * DonatedText and NotDonatedText are declared in the source but never read.
   */
  datatype ModConfig = ModConfig(
    showDonationStatus: bool,
    iconPosition: IconPosition,
    iconOffsetX: int,
    iconOffsetY: int,
    iconScale: real,
    showIconBackground: bool)

  /** The property initialisers: the configuration a fresh settings file yields. */
  function Default(): (c: ModConfig)
    ensures c.showDonationStatus && c.showIconBackground
    ensures c.iconPosition == TopRight
    ensures c.iconOffsetX == 0 && c.iconOffsetY == 0
    ensures c.iconScale == 2.0
  {
    ModConfig(true, TopRight, 0, 0, 2.0, true)
  }
}
