/** The package record as the /packages endpoint returns it, shared by the
    public package cards and the admin package editor. */
module Catalog {

  import opened Wrappers

  /** One entry of `perPersonPricing`. */
  datatype PricingTier = PricingTier(peopleCount: string, price: string)

  /** One key of the `menu` object and its list of dishes. The keys of a
      JavaScript object are distinct, so the menu is a sequence of sections
      with distinct categories, listed in the order `Object.keys` gives. */
  datatype MenuSection = MenuSection(category: string, items: seq<string>)

  /** A package. `id` is `_id` (absent on a package not yet saved); the
      list fields and the menu may be absent from what the server sends. */
  datatype Package = Package(
    id: Option<string>,
    name: string,
    description: string,
    category: string,
    pricingType: string,
    fixedPrice: string,
    perPersonPricing: seq<PricingTier>,
    customPricingNote: string,
    included: Option<seq<string>>,
    excluded: Option<seq<string>>,
    terms: Option<seq<string>>,
    menu: Option<seq<MenuSection>>,
    images: Option<seq<string>>)

  /** No two sections of a menu share a category. */
  predicate DistinctCategories(menu: seq<MenuSection>) {
    forall i, j :: 0 <= i < j < |menu| ==> menu[i].category != menu[j].category
  }

  /** `menu[key]`: the dishes of the section named `key`, if there is one. */
  function Lookup(menu: seq<MenuSection>, key: string): (r: Option<seq<string>>)
    ensures r.Some? <==> exists i :: 0 <= i < |menu| && menu[i].category == key
    ensures r.Some? ==> exists i :: 0 <= i < |menu| && menu[i] == MenuSection(key, r.value)
  {
    if menu == [] then None
    else if menu[0].category == key then Some(menu[0].items)
    else
      var r := Lookup(menu[1..], key);
      assert forall i :: 1 <= i < |menu| ==> menu[i] == menu[1..][i - 1];
      assert r.Some? ==> exists i :: 0 <= i < |menu[1..]| && menu[1..][i] == MenuSection(key, r.value);
      r
  }

  /** In a menu with distinct categories, looking up a section's category
      finds that section's dishes. */
  lemma {:induction false} LookupFinds(menu: seq<MenuSection>, i: int)
    requires DistinctCategories(menu) && 0 <= i < |menu|
    ensures Lookup(menu, menu[i].category) == Some(menu[i].items)
  {
    if i > 0 {
      assert menu[0].category != menu[i].category;
      var tail := menu[1..];
      assert DistinctCategories(tail) by {
        forall a, b | 0 <= a < b < |tail|
          ensures tail[a].category != tail[b].category
        {
          assert tail[a] == menu[a + 1] && tail[b] == menu[b + 1];
        }
      }
      assert tail[i - 1] == menu[i];
      LookupFinds(tail, i - 1);
    }
  }
}
