/**
 * constants/Categories.ts: the fixed table of news categories and their
 * Portuguese display labels, the two lookup maps built from it by `reduce`,
 * and the three lookups. A search term equal to a label is routed to the
 * news API as a category filter instead of free text.
 */
module Categories {
  import opened Wrappers

  /** The `NewsCategory` union type; `General` is in the type but not in the table. */
  datatype NewsCategory =
    | General | World | Nation | Business | Technology
    | Entertainment | Sports | Science | Health

  /** The string each category is at run time. */
  function Name(c: NewsCategory): string {
    match c
    case General => "general"
    case World => "world"
    case Nation => "nation"
    case Business => "business"
    case Technology => "technology"
    case Entertainment => "entertainment"
    case Sports => "sports"
    case Science => "science"
    case Health => "health"
  }

  /** One row of the table (its `image` asset is left out). */
  datatype CategoryItem = CategoryItem(category: NewsCategory, labelText: string)

  const CATEGORIES: seq<CategoryItem> := [
    CategoryItem(Technology, "Tecnologia"),
    CategoryItem(Business, "Economia"),
    CategoryItem(Science, "Ciência"),
    CategoryItem(Sports, "Esportes"),
    CategoryItem(Nation, "Política"),
    CategoryItem(Entertainment, "Entretenimento"),
    CategoryItem(Health, "Saúde"),
    CategoryItem(World, "Mundo")
  ]

  /** The `reduce` building `CATEGORY_TO_LABEL`: left to right, a later row overwrites an earlier key. */
  function IndexByCategory(items: seq<CategoryItem>, acc: map<string, string>): map<string, string>
    decreases |items|
  {
    if items == [] then acc
    else IndexByCategory(items[1..], acc[Name(items[0].category) := items[0].labelText])
  }

  /** The `reduce` building `LABEL_TO_CATEGORY`. */
  function IndexByLabel(items: seq<CategoryItem>, acc: map<string, NewsCategory>): map<string, NewsCategory>
    decreases |items|
  {
    if items == [] then acc
    else IndexByLabel(items[1..], acc[items[0].labelText := items[0].category])
  }

  const CATEGORY_TO_LABEL: map<string, string> := IndexByCategory(CATEGORIES, map[])
  const LABEL_TO_CATEGORY: map<string, NewsCategory> := IndexByLabel(CATEGORIES, map[])

  /** `isNewsCategory(term)`: some row of the table has `term` as its category. */
  predicate IsNewsCategory(term: string) {
    exists i :: 0 <= i < |CATEGORIES| && Name(CATEGORIES[i].category) == term
  }

  /** `getCategoryLabel(category)`: the mapped label, or the input itself when the lookup is missing or falsy. */
  function GetCategoryLabel(category: string): string {
    if category in CATEGORY_TO_LABEL && CATEGORY_TO_LABEL[category] != "" then CATEGORY_TO_LABEL[category]
    else category
  }

  /** `getCategoryFromLabel(label)`: the mapped category, or null. */
  function GetCategoryFromLabel(labelText: string): Option<NewsCategory> {
    if labelText in LABEL_TO_CATEGORY && Name(LABEL_TO_CATEGORY[labelText]) != "" then Some(LABEL_TO_CATEGORY[labelText])
    else None
  }

  // ----- the table -----

  predicate DistinctCategories(items: seq<CategoryItem>) {
    forall i, j :: 0 <= i < j < |items| ==> Name(items[i].category) != Name(items[j].category)
  }

  predicate DistinctLabels(items: seq<CategoryItem>) {
    forall i, j :: 0 <= i < j < |items| ==> items[i].labelText != items[j].labelText
  }

  /** Different categories are different strings. */
  lemma NameInjective(c: NewsCategory, d: NewsCategory)
    requires Name(c) == Name(d)
    ensures c == d
  {
    match c
    case General => assert Name(c)[0] == 'g';
    case World => assert Name(c)[0] == 'w';
    case Nation => assert Name(c)[0] == 'n';
    case Business => assert Name(c)[0] == 'b';
    case Technology => assert Name(c)[0] == 't';
    case Entertainment => assert Name(c)[0] == 'e';
    case Sports => assert Name(c)[..2] == "sp";
    case Science => assert Name(c)[..2] == "sc";
    case Health => assert Name(c)[0] == 'h';
  }

  /** Categories and labels of the table are pairwise distinct, and "general" is not in it. */
  lemma TableIsInjective()
    ensures DistinctCategories(CATEGORIES)
    ensures DistinctLabels(CATEGORIES)
    ensures forall i :: 0 <= i < |CATEGORIES| ==> CATEGORIES[i].category != General
    ensures forall i :: 0 <= i < |CATEGORIES| ==> CATEGORIES[i].labelText != ""
  {
    forall i, j | 0 <= i < j < |CATEGORIES|
      ensures Name(CATEGORIES[i].category) != Name(CATEGORIES[j].category)
    {
      if Name(CATEGORIES[i].category) == Name(CATEGORIES[j].category) {
        NameInjective(CATEGORIES[i].category, CATEGORIES[j].category);
      }
    }
    forall i, j | 0 <= i < j < |CATEGORIES|
      ensures CATEGORIES[i].labelText != CATEGORIES[j].labelText
    {
      var a, b := CATEGORIES[i].labelText, CATEGORIES[j].labelText;
      assert a[0] != b[0] || a[1] != b[1];
    }
  }

  /** What the category `reduce` produces from rows with distinct categories. */
  lemma {:induction false} IndexByCategoryMaps(items: seq<CategoryItem>, acc: map<string, string>)
    requires DistinctCategories(items)
    ensures forall i :: 0 <= i < |items| ==>
      Name(items[i].category) in IndexByCategory(items, acc) &&
      IndexByCategory(items, acc)[Name(items[i].category)] == items[i].labelText
    ensures forall k :: k in IndexByCategory(items, acc) ==>
      k in acc || exists i :: 0 <= i < |items| && Name(items[i].category) == k
    decreases |items|
  {
    if items != [] {
      var acc' := acc[Name(items[0].category) := items[0].labelText];
      IndexByCategoryMaps(items[1..], acc');
      var m := IndexByCategory(items, acc);
      forall i | 0 <= i < |items|
        ensures Name(items[i].category) in m && m[Name(items[i].category)] == items[i].labelText
      {
        if i > 0 {
          assert items[1..][i - 1] == items[i];
        } else {
          IndexByCategoryKeeps(items[1..], acc', Name(items[0].category));
        }
      }
      forall k | k in m
        ensures k in acc || exists i :: 0 <= i < |items| && Name(items[i].category) == k
      {
        if k !in acc' {
          var i :| 0 <= i < |items[1..]| && Name(items[1..][i].category) == k;
          assert Name(items[i + 1].category) == k;
        } else if k !in acc {
          assert Name(items[0].category) == k;
        }
      }
    }
  }

  /** A key no remaining row mentions keeps its accumulated value. */
  lemma {:induction false} IndexByCategoryKeeps(items: seq<CategoryItem>, acc: map<string, string>, k: string)
    requires k in acc
    requires forall i :: 0 <= i < |items| ==> Name(items[i].category) != k
    ensures k in IndexByCategory(items, acc) && IndexByCategory(items, acc)[k] == acc[k]
    decreases |items|
  {
    if items != [] {
      assert Name(items[0].category) != k;
      IndexByCategoryKeeps(items[1..], acc[Name(items[0].category) := items[0].labelText], k);
    }
  }

  /** What the label `reduce` produces from rows with distinct labels. */
  lemma {:induction false} IndexByLabelMaps(items: seq<CategoryItem>, acc: map<string, NewsCategory>)
    requires DistinctLabels(items)
    ensures forall i :: 0 <= i < |items| ==>
      items[i].labelText in IndexByLabel(items, acc) &&
      IndexByLabel(items, acc)[items[i].labelText] == items[i].category
    ensures forall k :: k in IndexByLabel(items, acc) ==>
      k in acc || exists i :: 0 <= i < |items| && items[i].labelText == k
    decreases |items|
  {
    if items != [] {
      var acc' := acc[items[0].labelText := items[0].category];
      IndexByLabelMaps(items[1..], acc');
      var m := IndexByLabel(items, acc);
      forall i | 0 <= i < |items|
        ensures items[i].labelText in m && m[items[i].labelText] == items[i].category
      {
        if i > 0 {
          assert items[1..][i - 1] == items[i];
        } else {
          IndexByLabelKeeps(items[1..], acc', items[0].labelText);
        }
      }
      forall k | k in m
        ensures k in acc || exists i :: 0 <= i < |items| && items[i].labelText == k
      {
        if k !in acc' {
          var i :| 0 <= i < |items[1..]| && items[1..][i].labelText == k;
          assert items[i + 1].labelText == k;
        } else if k !in acc {
          assert items[0].labelText == k;
        }
      }
    }
  }

  /** A label no remaining row mentions keeps its accumulated category. */
  lemma {:induction false} IndexByLabelKeeps(items: seq<CategoryItem>, acc: map<string, NewsCategory>, k: string)
    requires k in acc
    requires forall i :: 0 <= i < |items| ==> items[i].labelText != k
    ensures k in IndexByLabel(items, acc) && IndexByLabel(items, acc)[k] == acc[k]
    decreases |items|
  {
    if items != [] {
      assert items[0].labelText != k;
      IndexByLabelKeeps(items[1..], acc[items[0].labelText := items[0].category], k);
    }
  }

  // ----- the lookups -----

  /**
   * `getCategoryFromLabel` returns the paired category exactly for the eight
   * labels of the table, and null for every other string.
   */
  lemma CategoryFromLabelSpec(labelText: string)
    ensures GetCategoryFromLabel(labelText).Some? <==>
      exists i :: 0 <= i < |CATEGORIES| && CATEGORIES[i].labelText == labelText
    ensures forall i :: 0 <= i < |CATEGORIES| && CATEGORIES[i].labelText == labelText ==>
      GetCategoryFromLabel(labelText) == Some(CATEGORIES[i].category)
  {
    TableIsInjective();
    IndexByLabelMaps(CATEGORIES, map[]);
    forall i | 0 <= i < |CATEGORIES| && CATEGORIES[i].labelText == labelText
      ensures GetCategoryFromLabel(labelText) == Some(CATEGORIES[i].category)
    {
      NameNonEmpty(CATEGORIES[i].category);
    }
  }

  /**
   * `getCategoryLabel` returns the paired label for each category of the
   * table, and gives back any other string unchanged ("general" included).
   */
  lemma CategoryLabelSpec(category: string)
    ensures forall i :: 0 <= i < |CATEGORIES| && Name(CATEGORIES[i].category) == category ==>
      GetCategoryLabel(category) == CATEGORIES[i].labelText
    ensures (forall i :: 0 <= i < |CATEGORIES| ==> Name(CATEGORIES[i].category) != category) ==>
      GetCategoryLabel(category) == category
  {
    TableIsInjective();
    IndexByCategoryMaps(CATEGORIES, map[]);
  }

  /** The two lookups are inverse on the table, in both directions. */
  lemma LookupsRoundTrip(c: NewsCategory, labelText: string)
    ensures IsNewsCategory(Name(c)) ==> GetCategoryFromLabel(GetCategoryLabel(Name(c))) == Some(c)
    ensures GetCategoryFromLabel(labelText).Some? ==>
      GetCategoryLabel(Name(GetCategoryFromLabel(labelText).value)) == labelText
  {
    if IsNewsCategory(Name(c)) {
      var i :| 0 <= i < |CATEGORIES| && Name(CATEGORIES[i].category) == Name(c);
      NameInjective(CATEGORIES[i].category, c);
      CategoryLabelSpec(Name(c));
      CategoryFromLabelSpec(CATEGORIES[i].labelText);
    }
    CategoryFromLabelSpec(labelText);
    if GetCategoryFromLabel(labelText).Some? {
      var i :| 0 <= i < |CATEGORIES| && CATEGORIES[i].labelText == labelText;
      CategoryLabelSpec(Name(CATEGORIES[i].category));
    }
  }

  /** `isNewsCategory` holds exactly for the eight categories of the table; "general" is not one of them. */
  lemma IsNewsCategorySpec(term: string)
    ensures IsNewsCategory(term) <==> term in {"technology", "business", "science", "sports",
                                               "nation", "entertainment", "health", "world"}
    ensures !IsNewsCategory("general")
  {
    if term in {"technology", "business", "science", "sports", "nation", "entertainment", "health", "world"} {
      if term == "technology" { assert Name(CATEGORIES[0].category) == term; }
      else if term == "business" { assert Name(CATEGORIES[1].category) == term; }
      else if term == "science" { assert Name(CATEGORIES[2].category) == term; }
      else if term == "sports" { assert Name(CATEGORIES[3].category) == term; }
      else if term == "nation" { assert Name(CATEGORIES[4].category) == term; }
      else if term == "entertainment" { assert Name(CATEGORIES[5].category) == term; }
      else if term == "health" { assert Name(CATEGORIES[6].category) == term; }
      else { assert Name(CATEGORIES[7].category) == term; }
    }
    TableIsInjective();
    if IsNewsCategory("general") {
      var i :| 0 <= i < |CATEGORIES| && Name(CATEGORIES[i].category) == "general";
      NameInjective(CATEGORIES[i].category, General);
    }
  }

  lemma NameNonEmpty(c: NewsCategory)
    ensures Name(c) != ""
  {
  }
}
