/** The menu page (src/pages/Index.tsx): image substitution, the category buttons,
    the category filter and the search box. */
module Menu {
  import opened Js
  import opened Seqs
  import opened Catalog

  /** The sentinel category that selects every food. */
  const AllCategories: string := "All"

  /** `imageMap[food.name] || food.image_url`: the bundled image when the name is a
      key with a non-empty value, the stored URL otherwise; no other field changes. */
  function WithImage(imageMap: map<string, string>, food: FoodItem): (r: FoodItem)
    ensures r.(imageUrl := food.imageUrl) == food
    ensures food.name in imageMap && imageMap[food.name] != "" ==> r.imageUrl == imageMap[food.name]
    ensures !(food.name in imageMap && imageMap[food.name] != "") ==> r.imageUrl == food.imageUrl
  {
    var mapped := if food.name in imageMap then imageMap[food.name] else "";
    food.(imageUrl := if mapped != "" then mapped else food.imageUrl)
  }

  /** The fetched foods with their images substituted, in the same order. */
  function WithImages(imageMap: map<string, string>, foods: seq<FoodItem>): (r: seq<FoodItem>)
    ensures |r| == |foods|
    ensures forall i :: 0 <= i < |foods| ==> r[i] == WithImage(imageMap, foods[i])
  {
    seq(|foods|, i requires 0 <= i < |foods| => WithImage(imageMap, foods[i]))
  }

  /** `data.map(f => f.category)`. */
  function Categories(foods: seq<FoodItem>): seq<string>
  {
    seq(|foods|, i requires 0 <= i < |foods| => foods[i].category)
  }

  /** The category buttons: "All", then each category of the foods once, in order
      of first appearance. The list has no repeated entry exactly when no food's
      category is itself "All". */
  function CategoryButtons(foods: seq<FoodItem>): (r: seq<string>)
    ensures |r| >= 1 && r[0] == AllCategories
    ensures forall c :: c in r[1..] <==> c in Categories(foods)
    ensures NoDuplicates(r[1..])
    ensures forall i, j :: 1 <= i < j < |r| ==>
      && r[i] in Categories(foods) && r[j] in Categories(foods)
      && FirstIndex(Categories(foods), r[i]) < FirstIndex(Categories(foods), r[j])
    ensures NoDuplicates(r) <==> AllCategories !in Categories(foods)
  {
    var d := Distinct(Categories(foods));
    var r := [AllCategories] + d;
    assert r[1..] == d;
    assert forall i :: 1 <= i < |r| ==> r[i] == d[i - 1];
    assert AllCategories in d ==> !NoDuplicates(r) by {
      if AllCategories in d {
        var j :| 0 <= j < |d| && d[j] == AllCategories;
        assert r[0] == r[j + 1];
      }
    }
    r
  }

  /** Substituting images does not change the category buttons. */
  lemma ImagesKeepCategoryButtons(imageMap: map<string, string>, foods: seq<FoodItem>)
    ensures CategoryButtons(WithImages(imageMap, foods)) == CategoryButtons(foods)
  {
    assert Categories(WithImages(imageMap, foods)) == Categories(foods);
  }

  predicate InCategory(category: string, food: FoodItem) {
    food.category == category
  }

  /** The foods shown for the selected category button. */
  function FilterByCategory(foods: seq<FoodItem>, selected: string): (r: seq<FoodItem>)
    ensures selected == AllCategories ==> r == foods
    ensures selected != AllCategories ==>
      && (forall i :: 0 <= i < |r| ==> r[i].category == selected)
      && (forall f: FoodItem :: f.category == selected ==> multiset(r)[f] == multiset(foods)[f])
      && IsSubsequence(r, foods)
  {
    if selected == AllCategories then foods
    else Filter(foods, f => InCategory(selected, f))
  }

  /** `food` matches `query`: the lower-cased query occurs in the lower-cased name,
      category or description. The query is not trimmed here. */
  predicate Matches(query: string, food: FoodItem) {
    var q := ToLower(query);
    || Includes(ToLower(food.name), q)
    || Includes(ToLower(food.category), q)
    || Includes(ToLower(food.description), q)
  }

  /** `handleSearch`: a query that is blank after trimming shows every food; any
      other query shows, in their order, exactly the foods it matches. */
  function Search(foods: seq<FoodItem>, query: string): (r: seq<FoodItem>)
    ensures AllWhiteSpace(query) ==> r == foods
    ensures !AllWhiteSpace(query) ==>
      && (forall i :: 0 <= i < |r| ==> Matches(query, r[i]))
      && (forall f: FoodItem :: Matches(query, f) ==> multiset(r)[f] == multiset(foods)[f])
      && IsSubsequence(r, foods)
  {
    BlankIffAllWhiteSpace(query);
    if Trim(query) == "" then foods
    else Filter(foods, f => Matches(query, f))
  }

  /** A query whose lower-cased form occurs in a food's lower-cased name finds that food. */
  lemma SearchFindsByName(foods: seq<FoodItem>, query: string, k: int, pos: int)
    requires 0 <= k < |foods|
    requires OccursAt(ToLower(foods[k].name), ToLower(query), pos)
    ensures foods[k] in Search(foods, query)
  {
    IncludesIff(ToLower(foods[k].name), ToLower(query));
    assert Matches(query, foods[k]);
    assert multiset(foods)[foods[k]] > 0;
  }
}
