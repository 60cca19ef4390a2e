/** The inventory store: storage locations, their categories and the items
    stored in them, with quantity updates, the per-location grouping, the
    name search and the location-name lookup. */
module Inventory {
  import opened Prelude

  datatype Location = Location(id: string, name: string, icon: string)

  datatype Category = Category(id: string, name: string, locationId: string)

  datatype Item = Item(id: string, name: string, quantity: int, locationId: string, categoryId: Option<string>)

  /** One category of a location together with its items. */
  datatype Group = Group(category: Category, items: seq<Item>)

  /** What `getItemsByLocation` yields. */
  datatype LocationView = LocationView(uncategorized: seq<Item>, grouped: seq<Group>)

  const SeedLocations: seq<Location> := [
    Location("1", "Kühlschrank", "❄️"),
    Location("2", "Vorratsschrank", "\U{1F96B}"),
    Location("3", "Keller", "\U{1F4E6}")
  ]

  const SeedCategories: seq<Category> := [
    Category("c1", "Oberes Fach", "1"),
    Category("c2", "Gemüsefach", "1"),
    Category("c3", "Gewürze", "2")
  ]

  /** The seed items; note the two entries with id "i1". */
  const SeedItems: seq<Item> := [
    Item("i1", "Milch", 2, "1", Some("c1")),
    Item("i1", "Baum", 2, "1", Some("c1")),
    Item("i2", "Karotten", 5, "1", Some("c2")),
    Item("i3", "Butter", 1, "1", None),
    Item("i4", "Nudeln", 3, "2", None),
    Item("i5", "Mineralwasser", 6, "3", None)
  ]

  const UnknownLocation: string := "Unbekannt"

  // ---------------------------------------------------------------------
  // Quantities
  // ---------------------------------------------------------------------

  function ItemIdIs(id: string): Item -> bool {
    (i: Item) => i.id == id
  }

  /** Adding `amount` to a quantity, clamped at 0 from below. */
  function Adjusted(quantity: int, amount: int): (q: int)
    ensures q >= 0
    ensures q == quantity + amount || (q == 0 && quantity + amount < 0)
  {
    if quantity + amount < 0 then 0 else quantity + amount
  }

  predicate NonNegative(items: seq<Item>) {
    forall k :: 0 <= k < |items| ==> items[k].quantity >= 0
  }

  // ---------------------------------------------------------------------
  // Grouping by location and category
  // ---------------------------------------------------------------------

  /** `categoryId` is truthy: present and not the empty string. */
  predicate HasCategory(i: Item) {
    i.categoryId.Some? && i.categoryId.value != ""
  }

  function AtLocation(locId: string): Item -> bool {
    (i: Item) => i.locationId == locId
  }

  function Uncategorized(): Item -> bool {
    (i: Item) => !HasCategory(i)
  }

  function InCategory(catId: string): Item -> bool {
    (i: Item) => i.categoryId == Some(catId)
  }

  function CategoryAt(locId: string): Category -> bool {
    (c: Category) => c.locationId == locId
  }

  function GroupOf(locItems: seq<Item>): Category -> Group {
    (c: Category) => Group(c, Filter(locItems, InCategory(c.id)))
  }

  function NonEmptyGroup(): Group -> bool {
    (g: Group) => |g.items| > 0
  }

  /** Whether some item of the location carries the category's id. */
  predicate Stocked(items: seq<Item>, locId: string, c: Category) {
    exists k :: 0 <= k < |items| && items[k].locationId == locId && items[k].categoryId == Some(c.id)
  }

  /** `getItemsByLocation`: the location's items without a category, and
      one non-empty group per category of the location, in category order. */
  function ItemsByLocation(items: seq<Item>, categories: seq<Category>, locId: string): (v: LocationView)
    ensures forall k :: 0 <= k < |v.uncategorized| ==>
      v.uncategorized[k] in items && v.uncategorized[k].locationId == locId && !HasCategory(v.uncategorized[k])
    ensures forall k :: 0 <= k < |items| && items[k].locationId == locId && !HasCategory(items[k]) ==>
      items[k] in v.uncategorized
    ensures forall g :: 0 <= g < |v.grouped| ==>
      && v.grouped[g].category in categories
      && v.grouped[g].category.locationId == locId
      && v.grouped[g].items == Filter(Filter(items, AtLocation(locId)), InCategory(v.grouped[g].category.id))
      && |v.grouped[g].items| > 0
  {
    var locItems := Filter(items, AtLocation(locId));
    var groups := MapSeq(Filter(categories, CategoryAt(locId)), GroupOf(locItems));
    LocationView(Filter(locItems, Uncategorized()), Filter(groups, NonEmptyGroup()))
  }

  function CategoryOf(g: Group): Category {
    g.category
  }

  function ShownAt(items: seq<Item>, locId: string): Category -> bool {
    (c: Category) => c.locationId == locId && Stocked(items, locId, c)
  }

  /** Every item of a group is an item of the location with that category. */
  lemma GroupItems(items: seq<Item>, locId: string, c: Category)
    ensures var gi := Filter(Filter(items, AtLocation(locId)), InCategory(c.id));
      forall k :: 0 <= k < |gi| ==> gi[k] in items && gi[k].locationId == locId && gi[k].categoryId == Some(c.id)
  {
    var li := Filter(items, AtLocation(locId));
    var gi := Filter(li, InCategory(c.id));
    forall k | 0 <= k < |gi| ensures gi[k] in items && gi[k].locationId == locId && gi[k].categoryId == Some(c.id) {
      assert InCategory(c.id)(gi[k]) && gi[k] in li;
      var m :| 0 <= m < |li| && li[m] == gi[k];
      assert AtLocation(locId)(li[m]);
    }
  }

  /** A category's group is non-empty exactly when the category is stocked. */
  lemma GroupNonEmpty(items: seq<Item>, locId: string, c: Category)
    ensures |Filter(Filter(items, AtLocation(locId)), InCategory(c.id))| > 0 <==> Stocked(items, locId, c)
  {
    var li := Filter(items, AtLocation(locId));
    var gi := Filter(li, InCategory(c.id));
    GroupItems(items, locId, c);
    if Stocked(items, locId, c) {
      var k :| 0 <= k < |items| && items[k].locationId == locId && items[k].categoryId == Some(c.id);
      assert AtLocation(locId)(items[k]);
      assert items[k] in li;
      var m :| 0 <= m < |li| && li[m] == items[k];
      assert InCategory(c.id)(li[m]);
      assert li[m] in gi;
    }
    if |gi| > 0 {
      assert gi[0].locationId == locId && gi[0].categoryId == Some(c.id);
      var m :| 0 <= m < |items| && items[m] == gi[0];
    }
  }

  /** The non-empty groups, read back as categories, are the location's
      stocked categories in `categories` order. */
  lemma {:induction false} GroupsInOrder(items: seq<Item>, cats: seq<Category>, locId: string)
    ensures MapSeq(Filter(MapSeq(Filter(cats, CategoryAt(locId)), GroupOf(Filter(items, AtLocation(locId)))), NonEmptyGroup()), CategoryOf)
         == Filter(cats, ShownAt(items, locId))
  {
    var li := Filter(items, AtLocation(locId));
    if cats != [] {
      var c := cats[0];
      GroupsInOrder(items, cats[1..], locId);
      GroupNonEmpty(items, locId, c);
      var restGroups := MapSeq(Filter(cats[1..], CategoryAt(locId)), GroupOf(li));
      if c.locationId == locId {
        assert Filter(cats, CategoryAt(locId)) == [c] + Filter(cats[1..], CategoryAt(locId));
        assert MapSeq(Filter(cats, CategoryAt(locId)), GroupOf(li)) == [GroupOf(li)(c)] + restGroups;
        if Stocked(items, locId, c) {
          assert Filter([GroupOf(li)(c)] + restGroups, NonEmptyGroup())
              == [GroupOf(li)(c)] + Filter(restGroups, NonEmptyGroup());
          assert MapSeq([GroupOf(li)(c)] + Filter(restGroups, NonEmptyGroup()), CategoryOf)
              == [c] + MapSeq(Filter(restGroups, NonEmptyGroup()), CategoryOf);
        } else {
          assert Filter([GroupOf(li)(c)] + restGroups, NonEmptyGroup()) == Filter(restGroups, NonEmptyGroup());
        }
      } else {
        assert Filter(cats, CategoryAt(locId)) == Filter(cats[1..], CategoryAt(locId));
      }
    }
  }

  /** The groups appear in category order: they are exactly the location's
      stocked categories, as `categories` lists them. */
  lemma GroupedInCategoryOrder(items: seq<Item>, categories: seq<Category>, locId: string)
    ensures MapSeq(ItemsByLocation(items, categories, locId).grouped, CategoryOf) == Filter(categories, ShownAt(items, locId))
  {
    GroupsInOrder(items, categories, locId);
  }

  /** Filtering by location and then by "no category" is one filter. */
  lemma {:induction false} FilterLocationThenUncategorized(items: seq<Item>, locId: string)
    ensures Filter(Filter(items, AtLocation(locId)), Uncategorized())
         == Filter(items, (i: Item) => i.locationId == locId && !HasCategory(i))
  {
    if items != [] {
      FilterLocationThenUncategorized(items[1..], locId);
    }
  }

  /** The uncategorized items keep the order of `items`. */
  lemma UncategorizedInOrder(items: seq<Item>, categories: seq<Category>, locId: string)
    ensures ItemsByLocation(items, categories, locId).uncategorized
         == Filter(items, (i: Item) => i.locationId == locId && !HasCategory(i))
  {
    FilterLocationThenUncategorized(items, locId);
  }

  /** An item of the location whose category is not one of the location's
      categories shows up nowhere in the view. */
  lemma OrphanHidden(items: seq<Item>, categories: seq<Category>, locId: string, x: Item)
    requires x.locationId == locId && HasCategory(x)
    requires forall c :: 0 <= c < |categories| && categories[c].locationId == locId ==> x.categoryId != Some(categories[c].id)
    ensures var v := ItemsByLocation(items, categories, locId);
      x !in v.uncategorized && forall g :: 0 <= g < |v.grouped| ==> x !in v.grouped[g].items
  {
    var v := ItemsByLocation(items, categories, locId);
    forall g | 0 <= g < |v.grouped| ensures x !in v.grouped[g].items {
      GroupItems(items, locId, v.grouped[g].category);
    }
  }

  // ---------------------------------------------------------------------
  // Search
  // ---------------------------------------------------------------------

  /** Lower-casing of one character: ASCII and Latin-1 capitals. */
  function LowerChar(c: char): (d: char)
    ensures 'A' <= c <= 'Z' ==> d as int == c as int + 32
    ensures ('À' <= c <= 'Þ' && c != '×') ==> d as int == c as int + 32
    ensures !('A' <= c <= 'Z') && !('À' <= c <= 'Þ' && c != '×') ==> d == c
  {
    if 'A' <= c <= 'Z' || ('À' <= c <= 'Þ' && c != '×') then (c as int + 32) as char else c
  }

  function Lower(s: string): (r: string)
    ensures |r| == |s| && forall k :: 0 <= k < |s| ==> r[k] == LowerChar(s[k])
  {
    if s == [] then [] else [LowerChar(s[0])] + Lower(s[1..])
  }

  lemma LowerIdempotent(s: string)
    ensures Lower(Lower(s)) == Lower(s)
  {
    assert forall k :: 0 <= k < |s| ==> LowerChar(LowerChar(s[k])) == LowerChar(s[k]);
  }

  /** `hay` has `needle` at position `k`. */
  predicate OccursAt(hay: string, needle: string, k: int) {
    0 <= k <= |hay| - |needle| && hay[k..k + |needle|] == needle
  }

  /** An occurrence that is not at the front is an occurrence in the tail. */
  lemma OccursInTail(hay: string, needle: string)
    requires |hay| >= |needle| && hay[..|needle|] != needle
    ensures (exists k :: OccursAt(hay, needle, k)) <==> (exists k :: OccursAt(hay[1..], needle, k))
  {
    if exists k :: OccursAt(hay, needle, k) {
      var k :| OccursAt(hay, needle, k);
      assert k != 0;
      assert hay[1..][k - 1..k - 1 + |needle|] == hay[k..k + |needle|];
      assert OccursAt(hay[1..], needle, k - 1);
    }
    if exists k :: OccursAt(hay[1..], needle, k) {
      var k :| OccursAt(hay[1..], needle, k);
      assert hay[k + 1..k + 1 + |needle|] == hay[1..][k..k + |needle|];
      assert OccursAt(hay, needle, k + 1);
    }
  }

  /** `hay.includes(needle)`. */
  function Contains(hay: string, needle: string): (b: bool)
    ensures b <==> exists k :: OccursAt(hay, needle, k)
  {
    if |hay| < |needle| then false
    else if hay[..|needle|] == needle then assert OccursAt(hay, needle, 0); true
    else OccursInTail(hay, needle); Contains(hay[1..], needle)
  }

  function NameMatches(lowerQuery: string): Item -> bool {
    (i: Item) => Contains(Lower(i.name), lowerQuery)
  }

  /** `searchItems`: nothing for an empty query, otherwise the items whose
      lower-cased name contains the lower-cased query, each as often as it
      occurs, in order (`SearchConcat`). */
  function SearchItems(items: seq<Item>, query: string): (r: seq<Item>)
    ensures query == "" ==> r == []
    ensures query != "" ==> forall k :: 0 <= k < |r| ==> r[k] in items && Contains(Lower(r[k].name), Lower(query))
    ensures query != "" ==> forall k :: 0 <= k < |items| && Contains(Lower(items[k].name), Lower(query)) ==> items[k] in r
    ensures query != "" ==> forall x :: multiset(r)[x] == if Contains(Lower(x.name), Lower(query)) then multiset(items)[x] else 0
  {
    if query == "" then []
    else
      FilterMultiset(items, NameMatches(Lower(query)));
      Filter(items, NameMatches(Lower(query)))
  }

  /** The search keeps the items' order: searching a concatenation is
      searching each part, one after the other. */
  lemma SearchConcat(a: seq<Item>, b: seq<Item>, query: string)
    ensures SearchItems(a + b, query) == SearchItems(a, query) + SearchItems(b, query)
  {
    if query != "" {
      FilterConcat(a, b, NameMatches(Lower(query)));
    }
  }

  /** The search does not see the case of the query. */
  lemma SearchIgnoresQueryCase(items: seq<Item>, query: string)
    ensures SearchItems(items, Lower(query)) == SearchItems(items, query)
  {
    LowerIdempotent(query);
  }

  // ---------------------------------------------------------------------
  // Location names
  // ---------------------------------------------------------------------

  function LocationIdIs(id: string): Location -> bool {
    (l: Location) => l.id == id
  }

  /** `getLocationName`: the name of the first location with the id, or
      "Unbekannt" when there is none or its name is empty. */
  function LocationName(locations: seq<Location>, locId: string): (r: string)
    ensures forall k :: 0 <= k < |locations| && locations[k].id == locId
                        && (forall j :: 0 <= j < k ==> locations[j].id != locId) ==>
      r == if locations[k].name == "" then UnknownLocation else locations[k].name
    ensures (forall k :: 0 <= k < |locations| ==> locations[k].id != locId) ==> r == UnknownLocation
  {
    var k := FindIndex(locations, LocationIdIs(locId));
    if k >= 0 && locations[k].name != "" then locations[k].name else UnknownLocation
  }

  // ---------------------------------------------------------------------
  // The store
  // ---------------------------------------------------------------------

  class Store {
    var locations: seq<Location>
    var categories: seq<Category>
    var items: seq<Item>

    /** The store starts with the seed data. */
    constructor ()
      ensures locations == SeedLocations && categories == SeedCategories && items == SeedItems
      ensures NonNegative(items)
    {
      locations, categories, items := SeedLocations, SeedCategories, SeedItems;
    }

    /** `updateQuantity`: the first item with the id gets its quantity
        changed by `amount`, clamped at 0; an unknown id changes nothing. */
    method UpdateQuantity(itemId: string, amount: int)
      modifies this
      ensures var k := FindIndex(old(items), ItemIdIs(itemId));
              items == if k >= 0 then old(items)[k := old(items)[k].(quantity := Adjusted(old(items)[k].quantity, amount))]
                       else old(items)
      ensures old(NonNegative(items)) ==> NonNegative(items)
      ensures locations == old(locations) && categories == old(categories)
    {
      var k := FindIndex(items, ItemIdIs(itemId));
      if k >= 0 {
        var q := items[k].quantity + amount;
        if q < 0 {
          q := 0;
        }
        items := items[k := items[k].(quantity := q)];
      }
    }
  }
}
