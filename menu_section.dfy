/**
 * The public menu: the list of dishes (built-in until a fetch replaces it) and
 * the category tabs that filter it.
 */
module MenuSection {
  import opened Json
  import opened RecordLists

  const Categories: seq<string> := ["All", "Starters", "Mains", "Desserts", "Beverages"]

  function Dish(id: real, name: string, description: string, price: real, category: string, image: string, tags: seq<string>): Record
  {
    map["id" := Num(id), "name" := Str(name), "description" := Str(description), "price" := Num(price),
        "category" := Str(category), "image" := Str(image), "tags" := Arr(seq(|tags|, k requires 0 <= k < |tags| => Str(tags[k])))]
  }

  const FirstImage := "https://images.pexels.com/photos/725991/pexels-photo-725991.jpeg?auto=compress&cs=tinysrgb&w=400&h=300&fit=crop"

  const StaticMenuItems: seq<Record> := [
    Dish(1.0, "Pan-Seared Scallops", "Fresh scallops with cauliflower puree and crispy pancetta", 28.0, "Starters",
      FirstImage, ["gluten-free"]),
    Dish(2.0, "Truffle Risotto", "Creamy arborio rice with black truffle and aged parmesan", 32.0, "Mains",
      "https://images.pexels.com/photos/3762075/pexels-photo-3762075.jpeg?auto=compress&cs=tinysrgb&w=400&h=300&fit=crop", ["vegetarian"]),
    Dish(3.0, "Wagyu Beef Tenderloin", "Premium wagyu with roasted vegetables and red wine jus", 65.0, "Mains",
      "https://images.pexels.com/photos/3535383/pexels-photo-3535383.jpeg?auto=compress&cs=tinysrgb&w=400&h=300&fit=crop", ["premium"]),
    Dish(4.0, "Chocolate Soufflé", "Rich dark chocolate soufflé with vanilla bean ice cream", 16.0, "Desserts",
      "https://images.pexels.com/photos/2067396/pexels-photo-2067396.jpeg?auto=compress&cs=tinysrgb&w=400&h=300&fit=crop", ["vegetarian"]),
    Dish(5.0, "Burrata Caprese", "Fresh burrata with heirloom tomatoes and basil oil", 22.0, "Starters",
      "https://images.pexels.com/photos/1213710/pexels-photo-1213710.jpeg?auto=compress&cs=tinysrgb&w=400&h=300&fit=crop", ["vegetarian", "gluten-free"]),
    Dish(6.0, "Sommelier Selection Wine", "Curated wine pairing selected by our expert sommelier", 18.0, "Beverages",
      "https://images.pexels.com/photos/1407846/pexels-photo-1407846.jpeg?auto=compress&cs=tinysrgb&w=400&h=300&fit=crop", ["premium"])]

  /** `filteredItems`: the whole list under 'All', otherwise the dishes of that category, in order. */
  function FilteredItems(items: seq<Record>, active: string): (r: seq<Record>)
    ensures active == "All" ==> r == items
    ensures active != "All" ==> forall x :: x in r <==> x in items && Field(x, "category") == Str(active)
    ensures active != "All" ==>
              forall x :: multiset(r)[x] == if Field(x, "category") == Str(active) then multiset(items)[x] else 0
    ensures |r| <= |items|
  {
    WhereCounts(items, "category", Str(active), true);
    if active == "All" then items else Where(items, "category", Str(active), true)
  }

  /** The filtered dishes keep their order in the full list. */
  lemma FilteredItemsInOrder(items: seq<Record>, active: string)
    ensures IsSubsequence(FilteredItems(items, active), items)
  {
    if active == "All" {
      SubsequenceOfItself(items);
    } else {
      WhereIsSubsequence(items, "category", Str(active), true);
    }
  }

  /** Filtering the filtered list by the same category changes nothing. */
  lemma FilterIdempotent(items: seq<Record>, active: string)
    ensures FilteredItems(FilteredItems(items, active), active) == FilteredItems(items, active)
  {
    if active != "All" {
      WhereIdempotent(items, "category", Str(active), true);
    }
  }

  /** A dish whose category is none of the tabs' shows up only under 'All'. */
  lemma UnlistedCategoryOnlyUnderAll(items: seq<Record>, x: Record)
    requires x in items
    requires forall c :: c in Categories ==> Field(x, "category") != Str(c)
    ensures forall c :: c in Categories ==> (x in FilteredItems(items, c) <==> c == "All")
  {
  }

  /** A fetched dish: `tags` defaults to `[]`, `image` to the first built-in dish's; the other fields are kept. */
  function Normalize(item: Record): (r: Record)
    ensures Field(r, "tags") == Or(Field(item, "tags"), Arr([]))
    ensures Field(r, "image") == Or(Field(item, "image"), Str(FirstImage))
    ensures Truthy(Field(r, "tags")) && Truthy(Field(r, "image"))
    ensures r.Keys == item.Keys + {"tags", "image"}
    ensures forall k :: k in item && k !in {"tags", "image"} ==> r[k] == item[k]
  {
    item + map["tags" := Or(Field(item, "tags"), Arr([])), "image" := Or(Field(item, "image"), Field(StaticMenuItems[0], "image"))]
  }

  /** Normalising a normalised dish changes nothing. */
  lemma NormalizeIdempotent(item: Record)
    ensures Normalize(Normalize(item)) == Normalize(item)
  {
    var n := Normalize(item);
    assert Normalize(n).Keys == n.Keys;
  }
}
