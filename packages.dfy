/** The public package cards (src/Components/Packages.jsx): which cards are
    expanded, how much of the included list a card shows, the header image,
    the menu highlights and the pricing line. */
module Packages {

  import opened Wrappers
  import opened JsText
  import opened Lists
  import opened Catalog

  /** A card is identified by its package's `_id`, which may be absent. */
  type PackageId = Option<string>

  function Others(id: PackageId): PackageId -> bool {
    x => x != id
  }

  /** toggleExpand: remove the id if it is there, else append it. */
  function ToggleExpand(ids: seq<PackageId>, id: PackageId): (r: seq<PackageId>)
    ensures id in r <==> id !in ids
    ensures forall x :: x != id ==> (x in r <==> x in ids)
  {
    FilterMembers(ids, Others(id));
    if id in ids then Filter(ids, Others(id)) else ids + [id]
  }

  /** Toggling never lists an id twice. */
  lemma ToggleKeepsDistinct(ids: seq<PackageId>, id: PackageId)
    requires NoDup(ids)
    ensures NoDup(ToggleExpand(ids, id))
  {
    if id in ids {
      FilterNoDup(ids, Others(id));
    }
  }

  /** Toggling twice restores which cards are expanded; when the card was
      collapsed it restores the list itself. */
  lemma ToggleTwice(ids: seq<PackageId>, id: PackageId)
    ensures forall x :: x in ToggleExpand(ToggleExpand(ids, id), id) <==> x in ids
    ensures id !in ids ==> ToggleExpand(ToggleExpand(ids, id), id) == ids
  {
    if id !in ids {
      FilterAll(ids, Others(id));
      FilterAppend(ids, [id], Others(id));
      assert Filter([id], Others(id)) == [];
    }
  }

  /** The included items a card lists: all when expanded, else the first 3. */
  function VisibleIncluded(included: seq<string>, expanded: bool): (r: seq<string>)
    ensures r <= included
    ensures |r| == if expanded || |included| <= 3 then |included| else 3
  {
    if expanded then included else Take(included, 3)
  }

  /** The button under the included list. */
  datatype ExpandButton = NoButton | ShowLess | ShowMore(hidden: int)

  function IncludedButton(included: seq<string>, expanded: bool): (r: ExpandButton)
    ensures r.NoButton? <==> |included| <= 3
    ensures r.ShowLess? <==> |included| > 3 && expanded
    ensures r.ShowMore? ==> r.hidden == |included| - 3 && r.hidden == |included| - |VisibleIncluded(included, expanded)|
  {
    if |included| > 3 then (if expanded then ShowLess else ShowMore(|included| - 3)) else NoButton
  }

  /** The listed items plus the hidden count are all the items. */
  lemma NothingLost(included: seq<string>, expanded: bool)
    ensures var b := IncludedButton(included, expanded);
            |VisibleIncluded(included, expanded)| + (if b.ShowMore? then b.hidden else 0) == |included|
  {
  }

  /** The three stock pictures, in order. */
  const StockImages: seq<string> := [
    "https://images.unsplash.com/photo-1507089947368-19c1da9775ae?auto=format&fit=crop&w=900&q=80",
    "https://images.unsplash.com/photo-1521737604893-d14cc237f11d?auto=format&fit=crop&w=900&q=80",
    "https://images.unsplash.com/photo-1542038784456-1ea8e935640e?auto=format&fit=crop&w=900&q=80"]

  /** The card header: the package's first image when it has a non-empty
      one, else the stock picture chosen by the card's position. */
  function BackgroundImage(images: Option<seq<string>>, index: nat): (r: string)
    ensures images.Some? && images.value != [] && images.value[0] != "" ==> r == images.value[0]
    ensures !(images.Some? && images.value != [] && images.value[0] != "") ==> r == StockImages[index % 3]
    ensures r != ""
  {
    if images.Some? && images.value != [] && images.value[0] != "" then images.value[0]
    else StockImages[index % |StockImages|]
  }

  /** Cards three places apart without pictures share the stock picture. */
  lemma StockCycles(index: nat)
    ensures BackgroundImage(None, index + 3) == BackgroundImage(None, index)
  {
  }

  /** One menu highlight chip. */
  datatype Chip = Chip(category: string, shown: seq<string>)

  /** The chip's text. */
  function ChipLabel(c: Chip): (r: string)
    ensures StartsWith(r, c.category + ": ")
    ensures |r| >= 3 && r[|r| - 3..] == "..."
    ensures forall k :: 0 <= k < |c.shown| ==> Includes(r, c.shown[k])
  {
    ChipShowsDishes(c);
    c.category + ": " + Join(c.shown, ", ") + "..."
  }

  /** Every shown dish occurs in the chip text. */
  lemma ChipShowsDishes(c: Chip)
    ensures forall k :: 0 <= k < |c.shown| ==>
              Includes(c.category + ": " + Join(c.shown, ", ") + "...", c.shown[k])
  {
    forall k | 0 <= k < |c.shown|
      ensures Includes(c.category + ": " + Join(c.shown, ", ") + "...", c.shown[k])
    {
      JoinIncludes(c.shown, ", ", k);
      IncludesWithin(c.category + ": ", Join(c.shown, ", "), "...", c.shown[k]);
    }
  }

  /** The menu highlights: no chips when there is no menu or it is empty,
      else one chip for each of the first 3 sections, showing its first 2
      dishes. */
  function MenuChips(menu: Option<seq<MenuSection>>): (r: seq<Chip>)
    ensures menu.None? ==> r == []
    ensures menu.Some? ==> |r| == if |menu.value| < 3 then |menu.value| else 3
    ensures forall i :: 0 <= i < |r| ==>
              r[i].category == menu.value[i].category && r[i].shown == Take(menu.value[i].items, 2)
    ensures forall i :: 0 <= i < |r| ==> |r[i].shown| <= 2
  {
    if menu.None? then []
    else
      var sections := Take(menu.value, 3);
      seq(|sections|, i requires 0 <= i < |sections| => Chip(sections[i].category, Take(sections[i].items, 2)))
  }

  /** The pricing line of a card header: the rupee price for fixed pricing,
      else a fixed text. */
  function PricingLabel(pkg: Package): (r: string)
    ensures pkg.pricingType == "fixed" ==> r == "\U{20B9}" + pkg.fixedPrice
    ensures pkg.pricingType == "perPerson" ==> r == "Per Person Pricing"
    ensures pkg.pricingType != "fixed" && pkg.pricingType != "perPerson" ==> r == "Custom Pricing"
  {
    if pkg.pricingType == "fixed" then "\U{20B9}" + pkg.fixedPrice
    else if pkg.pricingType == "perPerson" then "Per Person Pricing"
    else "Custom Pricing"
  }
}
