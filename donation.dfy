/**
 * Donation eligibility (Utils.IsUnDonatedFish and ModEntry.IsFish in
 * ModEntry.cs): an item is marked when it is a fish whose aquarium
 * donation flag is missing from the master player's received mail.
 */
module Donation {
  import opened Wrappers

  /** Item.Category of every fish (StardewValley.Object.FishCategory). */
  const FishCategory: int := -4

  /** Namespace of the mail flags the aquarium sets when a fish is donated. */
  const DonationPrefix: string := "AquariumDonated:"

  /** Whether the item is a StardewValley.Object or another Item subclass (tool, ring, ...). */
  datatype ItemKind = GameObject | OtherItem

  /** The host's item as the overlay sees it: its runtime class, Name and Category. */
  datatype Item = Item(kind: ItemKind, name: string, category: int)

  /**
   * The master player's mailReceived collection, or the failure the lookup
   * raised (no master player, a null name): the path the source's catch takes.
   */
  datatype MailLookup = Received(flags: set<string>) | LookupFailed

  /** `s.Replace(" ", string.Empty)`: every space character removed, nothing else. */
  function RemoveSpaces(s: string): (r: string)
    ensures ' ' !in r
    ensures |r| <= |s|
  {
    if s == [] then []
    else if s[0] == ' ' then RemoveSpaces(s[1..])
    else [s[0]] + RemoveSpaces(s[1..])
  }

  /** Removing spaces keeps every other character, as often as it occurs. */
  lemma {:induction false} RemoveSpacesKeeps(s: string, c: char)
    requires c != ' '
    ensures multiset(RemoveSpaces(s))[c] == multiset(s)[c]
  {
    if s != [] {
      RemoveSpacesKeeps(s[1..], c);
      assert s == [s[0]] + s[1..];
      assert multiset(s) == multiset([s[0]]) + multiset(s[1..]);
    }
  }

  /** Removing spaces distributes over concatenation, so the kept characters stay in order. */
  lemma {:induction false} RemoveSpacesAppend(a: string, b: string)
    ensures RemoveSpaces(a + b) == RemoveSpaces(a) + RemoveSpaces(b)
  {
    if a == [] {
      assert a + b == b;
    } else {
      assert (a + b)[1..] == a[1..] + b;
      RemoveSpacesAppend(a[1..], b);
    }
  }

  /** A name is left as it is exactly when it holds no space. */
  lemma {:induction false} RemoveSpacesFixed(s: string)
    ensures RemoveSpaces(s) == s <==> ' ' !in s
  {
    if s != [] && ' ' !in s {
      assert ' ' !in s[1..];
      RemoveSpacesFixed(s[1..]);
    }
  }

  /** The mail flag the aquarium sets for a donated fish of this name. */
  function DonationFlag(name: string): (flag: string)
    ensures |flag| == |DonationPrefix| + |RemoveSpaces(name)|
    ensures flag[..|DonationPrefix|] == DonationPrefix
    ensures ' ' !in flag
  {
    DonationPrefix + RemoveSpaces(name)
  }

  /** Two names share a flag exactly when they agree once spaces are removed. */
  lemma DonationFlagSame(a: string, b: string)
    ensures DonationFlag(a) == DonationFlag(b) <==> RemoveSpaces(a) == RemoveSpaces(b)
  {
  }

  /** The flag of a carp: the name has no space to remove. */
  lemma CarpFlag()
    ensures DonationFlag("Carp") == "AquariumDonated:Carp"
  {
  }

  /** A two-word name such as "Sea Cucumber" loses the one space between its words. */
  lemma TwoWordFlag(first: string, second: string)
    requires ' ' !in first && ' ' !in second
    ensures DonationFlag(first + " " + second) == DonationPrefix + first + second
  {
    RemoveSpacesFixed(first);
    RemoveSpacesFixed(second);
    assert RemoveSpaces(" ") == [];
    RemoveSpacesAppend(first, " ");
    RemoveSpacesAppend(first + " ", second);
  }

  /** ModEntry.IsFish: both of its branches compare the category with the fish category. */
  function IsFish(item: Item): (r: bool)
    ensures r <==> item.category == FishCategory
  {
    match item.kind
    case GameObject => item.category == FishCategory
    case OtherItem => item.category == -4
  }

  /** Utils.IsUnDonatedFish: a fish whose donation flag is not in the received mail. */
  function IsUnDonatedFish(item: Option<Item>, mail: MailLookup): (r: bool)
    ensures item.None? ==> !r
    ensures item.Some? && item.value.category != FishCategory ==> !r
    ensures mail.LookupFailed? ==> !r
    ensures item.Some? && item.value.category == FishCategory && mail.Received? ==>
              (r <==> DonationFlag(item.value.name) !in mail.flags)
  {
    if item.None? || item.value.category != -4 then false
    else
      match mail
      case LookupFailed => false
      case Received(flags) =>
        var donationFlag := DonationFlag(item.value.name);
        donationFlag !in flags
  }

  /** Only fish are ever reported un-donated. */
  lemma UnDonatedIsFish(item: Item, mail: MailLookup)
    ensures IsUnDonatedFish(Some(item), mail) ==> IsFish(item)
  {
  }

  /** Names that differ only in spaces have the same donation status. */
  lemma SpacesDoNotMatter(a: Item, b: Item, mail: MailLookup)
    requires a.category == b.category
    requires RemoveSpaces(a.name) == RemoveSpaces(b.name)
    ensures IsUnDonatedFish(Some(a), mail) == IsUnDonatedFish(Some(b), mail)
  {
  }

  /** A carp whose flag is in the mail is donated; with the flag absent it is not. */
  lemma CarpScenario(flags: set<string>)
    ensures IsUnDonatedFish(Some(Item(GameObject, "Carp", -4)), Received(flags)) <==> "AquariumDonated:Carp" !in flags
    ensures !IsUnDonatedFish(Some(Item(GameObject, "Carp", -4)), LookupFailed)
  {
    CarpFlag();
  }
}
