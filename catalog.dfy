/** The static menu: items, categories, order types and payment methods, the category filter
    of the menu page and the lookup of an item by id. */
module Catalog {
  import opened Results
  import opened Text

  /** A dish on the menu. Every listed price is a whole number of rupees. */
  datatype MenuItem = MenuItem(
    id: string,
    name: string,
    description: string,
    price: int,
    category: string,
    imageUrl: string,
    available: bool)

  const MenuItems: seq<MenuItem> :=
    [
      MenuItem("1", "Retro Restaurant Mutton Biryani",
        "Signature mutton biryani with aromatic spices and basmati rice",
        280, "Biryani",
        "https://images.unsplash.com/photo-1563379091339-03246963d29c", true),
      MenuItem("2", "Chicken Biryani",
        "Tender chicken pieces cooked with fragrant biryani rice",
        240, "Biryani",
        "https://images.unsplash.com/photo-1563379091339-03246963d29c", true),
      MenuItem("3", "Prawn Biryani",
        "Fresh prawns layered with aromatic biryani rice",
        320, "Biryani",
        "https://images.unsplash.com/photo-1563379091339-03246963d29c", true),
      MenuItem("4", "Egg Biryani",
        "Boiled eggs cooked with flavorful biryani rice",
        180, "Biryani",
        "https://images.unsplash.com/photo-1563379091339-03246963d29c", true),
      MenuItem("5", "Chicken 65",
        "Spicy deep-fried chicken with curry leaves and chilies",
        220, "Starters",
        "https://images.unsplash.com/photo-1567188040759-fb8a883dc6d8", true),
      MenuItem("6", "Mutton Pepper Fry",
        "Tender mutton pieces tossed with black pepper and spices",
        280, "Starters",
        "https://images.unsplash.com/photo-1567188040759-fb8a883dc6d8", true),
      MenuItem("7", "Fish Fry",
        "Marinated fish fillets fried to golden perfection",
        250, "Starters",
        "https://images.unsplash.com/photo-1567188040759-fb8a883dc6d8", true),
      MenuItem("8", "Prawn Roast",
        "Prawns roasted with onions and South Indian spices",
        300, "Starters",
        "https://images.unsplash.com/photo-1567188040759-fb8a883dc6d8", true),
      MenuItem("9", "Mutton Bone Soup",
        "Rich and nutritious soup made from mutton bones",
        120, "Soups",
        "https://images.unsplash.com/photo-1547592166-23ac45744acd", true),
      MenuItem("10", "Chicken Soup",
        "Clear chicken soup with vegetables and herbs",
        100, "Soups",
        "https://images.unsplash.com/photo-1547592166-23ac45744acd", true),
      MenuItem("11", "Tomato Soup",
        "Fresh tomato soup with aromatic spices",
        80, "Soups",
        "https://images.unsplash.com/photo-1547592166-23ac45744acd", true),
      MenuItem("12", "Chettinad Chicken",
        "Spicy chicken curry with Chettinad spices",
        260, "Curries",
        "https://images.unsplash.com/photo-1565557623262-b51c2513a641", true),
      MenuItem("13", "Mutton Curry",
        "Traditional Tamil mutton curry with coconut and spices",
        300, "Curries",
        "https://images.unsplash.com/photo-1565557623262-b51c2513a641", true),
      MenuItem("14", "Fish Curry",
        "Tangy fish curry cooked in coconut milk",
        240, "Curries",
        "https://images.unsplash.com/photo-1565557623262-b51c2513a641", true),
      MenuItem("15", "Prawn Curry",
        "Fresh prawns in spicy tamarind curry",
        280, "Curries",
        "https://images.unsplash.com/photo-1565557623262-b51c2513a641", true),
      MenuItem("16", "Dal Tadka",
        "Yellow lentils tempered with cumin and mustard seeds",
        120, "Curries",
        "https://images.unsplash.com/photo-1565557623262-b51c2513a641", true),
      MenuItem("17", "Kerala Parotta",
        "Flaky layered bread served with curry",
        15, "Parottas & Breads",
        "https://images.unsplash.com/photo-1606491956689-2ea866880c84", true),
      MenuItem("18", "Kothu Parotta",
        "Shredded parotta stir-fried with egg and vegetables",
        140, "Parottas & Breads",
        "https://images.unsplash.com/photo-1606491956689-2ea866880c84", true),
      MenuItem("19", "Naan",
        "Soft leavened bread baked in tandoor",
        25, "Parottas & Breads",
        "https://images.unsplash.com/photo-1606491956689-2ea866880c84", true),
      MenuItem("20", "Garlic Naan",
        "Naan bread topped with fresh garlic and herbs",
        35, "Parottas & Breads",
        "https://images.unsplash.com/photo-1606491956689-2ea866880c84", true),
      MenuItem("21", "Chapati",
        "Whole wheat flatbread cooked on tawa",
        12, "Parottas & Breads",
        "https://images.unsplash.com/photo-1606491956689-2ea866880c84", true),
      MenuItem("22", "Filter Coffee",
        "Traditional South Indian filter coffee",
        30, "Beverages",
        "https://images.unsplash.com/photo-1509042239860-f550ce710b93", true),
      MenuItem("23", "Masala Tea",
        "Spiced tea with cardamom and ginger",
        25, "Beverages",
        "https://images.unsplash.com/photo-1509042239860-f550ce710b93", true),
      MenuItem("24", "Fresh Lime Soda",
        "Refreshing lime soda with mint",
        40, "Beverages",
        "https://images.unsplash.com/photo-1509042239860-f550ce710b93", true)
    ]

  const Categories: seq<string> :=
    ["Biryani", "Starters", "Soups", "Curries", "Parottas & Breads", "Beverages"]

  const OrderTypes: seq<string> := ["dine-in", "takeaway"]

  const PaymentMethods: seq<string> :=
    ["cash", "upi-gpay", "upi-phonepe", "credit-card", "debit-card"]

  /** No two items of `items` share an id. */
  predicate UniqueIds(items: seq<MenuItem>) {
    forall i, j :: 0 <= i < j < |items| ==> items[i].id != items[j].id
  }

  /** Distinct numbers have distinct decimal renderings. */
  lemma {:induction false} NatToStringInjective(a: nat, b: nat)
    requires NatToString(a) == NatToString(b)
    ensures a == b
    decreases a
  {
    var s := NatToString(a);
    if a < 10 && b < 10 {
      assert s[0] == DigitChar(a) == DigitChar(b);
    } else if a >= 10 && b >= 10 {
      var n := |s|;
      assert s == NatToString(a / 10) + [DigitChar(a % 10)];
      assert s == NatToString(b / 10) + [DigitChar(b % 10)];
      assert s[n - 1] == DigitChar(a % 10) == DigitChar(b % 10);
      assert s[..n - 1] == NatToString(a / 10) == NatToString(b / 10);
      NatToStringInjective(a / 10, b / 10);
    }
  }

  /** The menu numbers its items "1", "2", ... in listing order. */
  lemma CatalogIdsAreSerial(i: nat)
    requires i < |MenuItems|
    ensures MenuItems[i].id == NatToString(i + 1)
  {
    if i < 9 {
      SingleDigitIds(i);
    } else {
      var n := i + 1;
      assert NatToString(n) == [DigitChar(n / 10), DigitChar(n % 10)];
      if i < 19 {
        TeensIds(i);
      } else {
        TwentiesIds(i);
      }
    }
  }

  lemma SingleDigitIds(i: nat)
    requires i < 9
    ensures MenuItems[i].id == [DigitChar(i + 1)]
  {
  }

  lemma TeensIds(i: nat)
    requires 9 <= i < 19
    ensures MenuItems[i].id == ['1', DigitChar(i - 9)]
  {
  }

  lemma TwentiesIds(i: nat)
    requires 19 <= i < |MenuItems|
    ensures MenuItems[i].id == ['2', DigitChar(i - 19)]
  {
  }

  lemma CatalogIdsUnique()
    ensures UniqueIds(MenuItems)
  {
    forall i, j | 0 <= i < j < |MenuItems|
      ensures MenuItems[i].id != MenuItems[j].id
    {
      CatalogIdsAreSerial(i);
      CatalogIdsAreSerial(j);
      if MenuItems[i].id == MenuItems[j].id {
        NatToStringInjective(i + 1, j + 1);
      }
    }
  }

  lemma CatalogCategoriesListed()
    ensures forall i :: 0 <= i < |MenuItems| ==> MenuItems[i].category in Categories
  {
  }

  lemma CatalogPricesNonNegative()
    ensures forall i :: 0 <= i < |MenuItems| ==> MenuItems[i].price >= 0
  {
  }

  /** `r` is `items` with some elements left out, the rest kept in their order. */
  predicate IsSubsequence(r: seq<MenuItem>, items: seq<MenuItem>)
    decreases |items|
  {
    if r == [] then true
    else if items == [] then false
    else (r[0] == items[0] && IsSubsequence(r[1..], items[1..])) || IsSubsequence(r, items[1..])
  }

  /** The items of `items` whose category is `category`, in listing order. */
  function FilterCategory(items: seq<MenuItem>, category: string): (r: seq<MenuItem>)
    ensures |r| <= |items|
    ensures forall x :: x in r <==> x in items && x.category == category
  {
    if items == [] then []
    else (if items[0].category == category then [items[0]] else []) + FilterCategory(items[1..], category)
  }

  /** The filter keeps every item of the category as often as it is listed, and no other. */
  lemma {:induction false} FilterCategoryCounts(items: seq<MenuItem>, category: string, x: MenuItem)
    ensures multiset(FilterCategory(items, category))[x] ==
      if x.category == category then multiset(items)[x] else 0
    decreases |items|
  {
    if items != [] {
      FilterCategoryCounts(items[1..], category, x);
      assert items == [items[0]] + items[1..];
      var head := if items[0].category == category then [items[0]] else [];
      assert multiset(head + FilterCategory(items[1..], category)) ==
        multiset(head) + multiset(FilterCategory(items[1..], category));
    }
  }

  /** The filter keeps the listing order. */
  lemma {:induction false} FilterCategoryOrdered(items: seq<MenuItem>, category: string)
    ensures IsSubsequence(FilterCategory(items, category), items)
    decreases |items|
  {
    if items != [] {
      FilterCategoryOrdered(items[1..], category);
      var r := FilterCategory(items, category);
      var rest := FilterCategory(items[1..], category);
      if items[0].category == category {
        assert r == [items[0]] + rest;
        assert r[1..] == rest;
      } else {
        assert r == rest;
      }
    }
  }

  /** Filtering a single item keeps it exactly when it has the category. */
  lemma FilterCategorySingle(x: MenuItem, category: string)
    ensures FilterCategory([x], category) == if x.category == category then [x] else []
  {
    assert [x][1..] == [];
  }

  /** Filtering distributes over concatenation: the kept items of the first part come
      before those of the second. */
  lemma {:induction false} FilterCategoryAppend(a: seq<MenuItem>, b: seq<MenuItem>, category: string)
    ensures FilterCategory(a + b, category) == FilterCategory(a, category) + FilterCategory(b, category)
    decreases |a|
  {
    if a == [] {
      assert a + b == b;
    } else {
      assert (a + b)[0] == a[0];
      assert (a + b)[1..] == a[1..] + b;
      FilterCategoryAppend(a[1..], b, category);
    }
  }

  /** What the menu page lists for the radio choice `selected`: everything for "All",
      otherwise the items of that category, in menu order and each as often as listed. */
  function MenuFor(selected: string): (r: seq<MenuItem>)
    ensures selected == "All" ==> r == MenuItems
    ensures selected != "All" ==> forall x :: x in r <==> x in MenuItems && x.category == selected
  {
    if selected == "All" then MenuItems else FilterCategory(MenuItems, selected)
  }

  /** The page keeps the menu's order for every choice, and a category choice shows each of
      its items as often as the menu lists it. */
  lemma MenuForOrdered(selected: string, x: MenuItem)
    ensures IsSubsequence(MenuFor(selected), MenuItems)
    ensures selected != "All" ==>
      multiset(MenuFor(selected))[x] == if x.category == selected then multiset(MenuItems)[x] else 0
  {
    if selected == "All" {
      SubsequenceOfItself(MenuItems);
    } else {
      FilterCategoryOrdered(MenuItems, selected);
      FilterCategoryCounts(MenuItems, selected, x);
    }
  }

  lemma {:induction false} SubsequenceOfItself(items: seq<MenuItem>)
    ensures IsSubsequence(items, items)
    decreases |items|
  {
    if items != [] {
      SubsequenceOfItself(items[1..]);
    }
  }

  /** Python's `next((m for m in items if m['id'] == id), None)`: the first item with the id. */
  function FindItem(items: seq<MenuItem>, id: string): (r: Option<MenuItem>)
    ensures r.None? <==> forall i :: 0 <= i < |items| ==> items[i].id != id
    ensures r.Some? ==> r.value in items && r.value.id == id
    ensures forall i :: 0 <= i < |items| && items[i].id == id ==>
      (forall j :: 0 <= j < i ==> items[j].id != id) ==> r == Some(items[i])
  {
    if items == [] then None
    else if items[0].id == id then Some(items[0])
    else FindItem(items[1..], id)
  }

  /** With unique ids, looking up the id of any listed item finds exactly that item. */
  lemma {:induction false} FindItemUnique(items: seq<MenuItem>, i: nat)
    requires UniqueIds(items) && i < |items|
    ensures FindItem(items, items[i].id) == Some(items[i])
    decreases |items|
  {
    if i > 0 {
      assert items[0].id != items[i].id;
      assert UniqueIds(items[1..]) by {
        forall a, b | 0 <= a < b < |items| - 1
          ensures items[1..][a].id != items[1..][b].id
        {
          assert items[1..][a] == items[a + 1] && items[1..][b] == items[b + 1];
        }
      }
      assert items[1..][i - 1] == items[i];
      FindItemUnique(items[1..], i - 1);
    }
  }

  lemma CatalogLookup(i: nat)
    requires i < |MenuItems|
    ensures FindItem(MenuItems, MenuItems[i].id) == Some(MenuItems[i])
  {
    CatalogIdsUnique();
    FindItemUnique(MenuItems, i);
  }
}
