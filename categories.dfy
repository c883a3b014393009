/** The scrap-category browser: top-level categories, drilling down into a
    category's subcategories, and handing a leaf category over to the
    services page. */
module Categories {
  import opened Wrappers
  import opened Schema
  import opened Strings
  import Seqs

  /** `!cat.parentId`: no parent, or the falsy parent id 0. */
  predicate IsTopLevel(c: Category) {
    c.parentId == None || c.parentId == Some(0)
  }

  /** The categories without a (truthy) parent, in order. */
  function MainCategories(cats: seq<Category>): (r: seq<Category>)
    ensures forall c :: c in r <==> c in cats && IsTopLevel(c)
    ensures Seqs.IsSubsequence(r, cats)
  {
    Seqs.Filter(cats, IsTopLevel)
  }

  /** The categories whose parent is strictly equal to the selection; with
      nothing selected these are the ones with no parent at all. */
  function SubCategories(cats: seq<Category>, selected: Option<int>): (r: seq<Category>)
    ensures forall c :: c in r <==> c in cats && c.parentId == selected
    ensures Seqs.IsSubsequence(r, cats)
  {
    Seqs.Filter(cats, (c: Category) => c.parentId == selected)
  }

  /** The categories shown for a selection keep every copy of a category
      that passes the page's test, and no copy of any other. */
  lemma DisplayedCategoriesCount(cats: seq<Category>, selected: Option<int>, c: Category)
    ensures multiset(MainCategories(cats))[c] == if IsTopLevel(c) then multiset(cats)[c] else 0
    ensures multiset(SubCategories(cats, selected))[c] ==
      if c.parentId == selected then multiset(cats)[c] else 0
    ensures multiset(DisplayedCategories(cats, selected))[c] ==
      if (if IsSelected(selected) then c.parentId == selected else IsTopLevel(c)) then multiset(cats)[c] else 0
  {
    Seqs.FilterCount(cats, IsTopLevel, c);
    Seqs.FilterCount(cats, (d: Category) => d.parentId == selected, c);
  }

  /** Whether some category names `id` as its parent. */
  predicate HasSubcategories(cats: seq<Category>, id: int) {
    exists c :: c in cats && c.parentId == Some(id)
  }

  /** Truthiness of the selection: none, and the id 0, count as unselected. */
  predicate IsSelected(selected: Option<int>) {
    selected.Some? && selected.value != 0
  }

  /** The categories the page shows for a selection. */
  function DisplayedCategories(cats: seq<Category>, selected: Option<int>): (r: seq<Category>)
    ensures IsSelected(selected) ==> r == SubCategories(cats, selected)
    ensures !IsSelected(selected) ==> r == MainCategories(cats)
  {
    if IsSelected(selected) then SubCategories(cats, selected) else MainCategories(cats)
  }

  /** The label of a category's button. */
  function ButtonLabel(cats: seq<Category>, id: int): (r: string)
    ensures r == "View Subcategories" <==> HasSubcategories(cats, id)
    ensures r == "Get Quote" <==> !HasSubcategories(cats, id)
  {
    if HasSubcategories(cats, id) then "View Subcategories" else "Get Quote"
  }

  const ServicesPrefix := "/services?category="

  /** Where a click on a leaf category leads: the prefix, then the id in
      decimal, without leading zeros and after a minus sign when negative. */
  function ServicesUrl(id: int): (r: string)
    ensures |r| > |ServicesPrefix| && r[..|ServicesPrefix|] == ServicesPrefix
    ensures id >= 0 ==> IsDecimal(r[|ServicesPrefix|..]) && ParseDigits(r[|ServicesPrefix|..]) == id
    ensures id < 0 ==>
      && |r| > |ServicesPrefix| + 1 && r[|ServicesPrefix|] == '-'
      && IsDecimal(r[|ServicesPrefix| + 1..]) && ParseDigits(r[|ServicesPrefix| + 1..]) == -id
  {
    var p := ServicesPrefix;
    var s := IntToString(id);
    IntToStringDecimal(id);
    var r := p + s;
    assert r[|p|..] == s;
    assert r[|p| + 1..] == s[1..];
    r
  }

  /** Distinct categories lead to distinct addresses. */
  lemma ServicesUrlInjective(a: int, b: int)
    requires ServicesUrl(a) == ServicesUrl(b)
    ensures a == b
  {
    var p := ServicesPrefix;
    assert ServicesUrl(a)[|p|..] == IntToString(a);
    assert ServicesUrl(b)[|p|..] == IntToString(b);
    IntToStringInjective(a, b);
  }

  /** A category has subcategories exactly when selecting it lists some. */
  lemma SubcategoriesIffListed(cats: seq<Category>, id: int)
    ensures SubCategories(cats, Some(id)) != [] <==> HasSubcategories(cats, id)
  {
    var r := SubCategories(cats, Some(id));
    if r != [] {
      assert r[0] in r;
    }
  }

  /** The heading of a selected category: the name of the first category
      with that id, if there is one. */
  function SelectedName(cats: seq<Category>, selected: Option<int>): (r: Option<string>)
    ensures r.Some? <==> exists c :: c in cats && Some(c.id) == selected
    ensures r.Some? ==> exists i ::
      && 0 <= i < |cats| && Some(cats[i].id) == selected && cats[i].name == r.value
      && forall j :: 0 <= j < i ==> Some(cats[j].id) != selected
  {
    match Seqs.Find(cats, (c: Category) => Some(c.id) == selected)
    case None => None
    case Some(c) => Some(c.name)
  }

  /** The page's state: the categories it fetched, the selected category
      and the address it last navigated to. */
  class CategoriesPage {
    var categories: seq<Category>
    var selectedCategory: Option<int>
    var location: Option<string>

    constructor(cats: seq<Category>)
      ensures categories == cats && selectedCategory == None && location == None
    {
      categories := cats;
      selectedCategory := None;
      location := None;
    }

    /** The categories on screen: those under the selected category when
        one is selected, the top-level ones otherwise, in fetched order. */
    function Displayed(): (r: seq<Category>)
      reads this
      ensures forall c :: c in r <==>
        (c in categories && if IsSelected(selectedCategory) then c.parentId == selectedCategory else IsTopLevel(c))
      ensures Seqs.IsSubsequence(r, categories)
    {
      DisplayedCategories(categories, selectedCategory)
    }

    /** A click on a category with subcategories selects it; a click on any
        other category navigates to its services page instead. */
    method HandleCategoryClick(id: int)
      modifies this
      ensures categories == old(categories)
      ensures HasSubcategories(categories, id) ==>
        selectedCategory == Some(id) && location == old(location)
      ensures !HasSubcategories(categories, id) ==>
        selectedCategory == old(selectedCategory) && location == Some(ServicesUrl(id))
    {
      if HasSubcategories(categories, id) {
        selectedCategory := Some(id);
      } else {
        location := Some(ServicesUrl(id));
      }
    }

    /** The back button clears the selection. */
    method Back()
      modifies this
      ensures categories == old(categories) && location == old(location)
      ensures selectedCategory == None
      ensures Displayed() == MainCategories(categories)
    {
      selectedCategory := None;
    }
  }

  /** The button's label announces what a click does: "View Subcategories"
      exactly when the click selects the category (and shows a non-empty
      list, for a non-zero id), "Get Quote" exactly when it navigates. */
  lemma LabelMatchesClick(cats: seq<Category>, id: int)
    ensures ButtonLabel(cats, id) == "View Subcategories" ==>
      (id != 0 ==> DisplayedCategories(cats, Some(id)) != [])
    ensures ButtonLabel(cats, id) == "View Subcategories" <==> SubCategories(cats, Some(id)) != []
  {
    SubcategoriesIffListed(cats, id);
  }
}
