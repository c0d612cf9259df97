/**
 * The packing list of `src/pages/PackingList.tsx`: categories of checkable items, the
 * add/toggle/delete handlers, the rounded progress percentages and template loading.
 */
module PackingList {
  import opened Text
  import Wrappers
  import Seqs

  datatype Item = Item(id: string, name: string, checked: bool)

  datatype Category = Category(id: string, name: string, items: seq<Item>)

  datatype Template = Template(id: string, name: string)

  const InitialCategories: seq<Category> := [
    Category("essentials", "Essentials \U{2705}", [
      Item("e1", "Passport", false), Item("e2", "ID / Driver's license", false),
      Item("e3", "Credit/debit cards", false), Item("e4", "Travel insurance", false),
      Item("e5", "Phone + charger", false)]),
    Category("clothing", "Clothing \U{1F455}", [
      Item("c1", "T-shirts", false), Item("c2", "Pants/jeans", false), Item("c3", "Underwear", false),
      Item("c4", "Socks", false), Item("c5", "Jacket/coat", false), Item("c6", "Pajamas", false)]),
    Category("toiletries", "Toiletries \U{1F9F4}", [
      Item("t1", "Toothbrush & toothpaste", false), Item("t2", "Shampoo & conditioner", false),
      Item("t3", "Soap/body wash", false), Item("t4", "Deodorant", false), Item("t5", "Medications", false),
      Item("t6", "First aid kit", false)]),
    Category("gadgets", "Gadgets \U{1F4F1}", [
      Item("g1", "Camera", false), Item("g2", "Laptop & charger", false), Item("g3", "Headphones", false),
      Item("g4", "Travel adapter", false), Item("g5", "Power bank", false)])
  ]

  const ListTemplates: seq<Template> := [
    Template("beach", "Beach Vacation \U{1F3D6}\U{FE0F}"),
    Template("business", "Business Trip \U{1F4BC}"),
    Template("camping", "Camping Trip \U{1F3D5}\U{FE0F}"),
    Template("skiing", "Ski Trip \U{26F7}\U{FE0F}")
  ]

  const DefaultListName := "My Trip"

  // ------------------------------------------------------------ item updates

  /** The inner map of `toggleItem`: flip `checked` on the items with that id. */
  function FlipItems(items: seq<Item>, itemId: string): (r: seq<Item>)
    ensures |r| == |items|
    ensures forall i :: 0 <= i < |items| ==>
      r[i] == if items[i].id == itemId then items[i].(checked := !items[i].checked) else items[i]
  {
    seq(|items|, i requires 0 <= i < |items| =>
      if items[i].id == itemId then items[i].(checked := !items[i].checked) else items[i])
  }

  /** `toggleItem(categoryId, itemId)`. */
  function Toggle(cats: seq<Category>, categoryId: string, itemId: string): (r: seq<Category>)
    ensures |r| == |cats|
    ensures forall i :: 0 <= i < |cats| ==>
      r[i] == if cats[i].id == categoryId then cats[i].(items := FlipItems(cats[i].items, itemId)) else cats[i]
  {
    seq(|cats|, i requires 0 <= i < |cats| =>
      if cats[i].id == categoryId then cats[i].(items := FlipItems(cats[i].items, itemId)) else cats[i])
  }

  /** The new item of `addItem`: id `<category id>-<timestamp>`, the untrimmed text, unchecked. */
  function NewItem(c: Category, text: string, stamp: string): Item
  {
    Item(c.id + "-" + stamp, text, false)
  }

  /** The category map of `addItem` (its blank-text guard is in `AfterAdd`). */
  function AppendItem(cats: seq<Category>, activeCategory: string, text: string, stamp: string): (r: seq<Category>)
    ensures |r| == |cats|
    ensures forall i :: 0 <= i < |cats| ==>
      r[i] == if cats[i].id == activeCategory then cats[i].(items := cats[i].items + [NewItem(cats[i], text, stamp)])
              else cats[i]
  {
    seq(|cats|, i requires 0 <= i < |cats| =>
      if cats[i].id == activeCategory then cats[i].(items := cats[i].items + [NewItem(cats[i], text, stamp)])
      else cats[i])
  }

  /** `items.filter(item => item.id !== itemId)`. */
  function RemoveItems(items: seq<Item>, itemId: string): (r: seq<Item>)
    ensures forall i :: 0 <= i < |r| ==> r[i] in items && r[i].id != itemId
    ensures forall i :: 0 <= i < |items| && items[i].id != itemId ==> items[i] in r
  {
    Seqs.Filter(items, (it: Item) => it.id != itemId)
  }

  /** `deleteItem(categoryId, itemId)`. */
  function Delete(cats: seq<Category>, categoryId: string, itemId: string): (r: seq<Category>)
    ensures |r| == |cats|
    ensures forall i :: 0 <= i < |cats| ==>
      r[i] == if cats[i].id == categoryId then cats[i].(items := RemoveItems(cats[i].items, itemId)) else cats[i]
  {
    seq(|cats|, i requires 0 <= i < |cats| =>
      if cats[i].id == categoryId then cats[i].(items := RemoveItems(cats[i].items, itemId)) else cats[i])
  }

  // ------------------------------------------------------------ progress

  function CountChecked(items: seq<Item>): (r: nat)
    ensures r <= |items|
  {
    if items == [] then 0 else (if items[0].checked then 1 else 0) + CountChecked(items[1..])
  }

  /** `r` is 100c/n rounded half up: within half a point of it, with halves going up. */
  predicate RoundsPercent(r: nat, c: nat, n: nat)
  {
    2 * n * r <= 200 * c + n < 2 * n * (r + 1)
  }

  /** `Math.round(100 * c / n)` computed exactly: round half up of the rational 100c/n. */
  function RoundPercent(c: nat, n: nat): (r: nat)
    requires 0 < n
    ensures RoundsPercent(r, c, n)
  {
    DivBracket(200 * c + n, 2 * n);
    (200 * c + n) / (2 * n)
  }

  /** `categories.find(c => c.id === categoryId)`: the first category with that id. */
  function FindCategory(cats: seq<Category>, categoryId: string): (r: Wrappers.Option<Category>)
    ensures r.Some? ==> r.value in cats && r.value.id == categoryId
    ensures r.None? <==> forall i :: 0 <= i < |cats| ==> cats[i].id != categoryId
    ensures forall i :: 0 <= i < |cats| && cats[i].id == categoryId && (forall j :: 0 <= j < i ==> cats[j].id != categoryId) ==> r == Wrappers.Some(cats[i])
  {
    if cats == [] then Wrappers.None
    else if cats[0].id == categoryId then Wrappers.Some(cats[0])
    else
      var r := FindCategory(cats[1..], categoryId);
      assert forall i :: 1 <= i < |cats| && cats[i].id == categoryId ==> cats[1..][i - 1] == cats[i];
      r
  }

  /** `getCategoryProgress`: the rounded share of checked items of the category, 0 for a missing or empty one. */
  function CategoryProgress(cats: seq<Category>, categoryId: string): (r: nat)
    ensures r <= 100
    ensures FindCategory(cats, categoryId).None? ==> r == 0
    ensures FindCategory(cats, categoryId).Some? && |FindCategory(cats, categoryId).value.items| == 0 ==> r == 0
    ensures var c := FindCategory(cats, categoryId);
      c.Some? && |c.value.items| > 0 ==>
        RoundsPercent(r, CountChecked(c.value.items), |c.value.items|)
  {
    var found := FindCategory(cats, categoryId);
    if found.None? || |found.value.items| == 0 then 0
    else
      var n, k := |found.value.items|, CountChecked(found.value.items);
      RoundPercentIsRounding(k, n);
      RoundPercent(k, n)
  }

  function TotalItems(cats: seq<Category>): nat
  {
    if cats == [] then 0 else |cats[0].items| + TotalItems(cats[1..])
  }

  function TotalChecked(cats: seq<Category>): (r: nat)
    ensures r <= TotalItems(cats)
  {
    if cats == [] then 0 else CountChecked(cats[0].items) + TotalChecked(cats[1..])
  }

  /** `getOverallProgress`: 0 when there are no items at all. */
  function OverallProgress(cats: seq<Category>): (r: nat)
    ensures r <= 100
    ensures TotalItems(cats) == 0 ==> r == 0
    ensures TotalChecked(cats) == TotalItems(cats) && TotalItems(cats) > 0 ==> r == 100
    ensures TotalChecked(cats) == 0 ==> r == 0
  {
    if TotalItems(cats) == 0 then 0
    else
      RoundPercentIsRounding(TotalChecked(cats), TotalItems(cats));
      RoundPercent(TotalChecked(cats), TotalItems(cats))
  }

  /** `listTemplates.find(t => t.id === templateId)?.name || 'My Trip'`. */
  function TemplateName(templates: seq<Template>, templateId: string): (r: string)
    ensures (forall i :: 0 <= i < |templates| ==> templates[i].id != templateId) ==> r == DefaultListName
    ensures r == DefaultListName || exists i :: 0 <= i < |templates| && templates[i].id == templateId && r == templates[i].name
    ensures forall i :: 0 <= i < |templates| && templates[i].id == templateId
                        && (forall j :: 0 <= j < i ==> templates[j].id != templateId) ==>
      r == if templates[i].name != "" then templates[i].name else DefaultListName
  {
    if templates == [] then DefaultListName
    else if templates[0].id == templateId then (if templates[0].name != "" then templates[0].name else DefaultListName)
    else
      var r := TemplateName(templates[1..], templateId);
      assert forall i :: 1 <= i < |templates| && templates[i].id == templateId ==> templates[1..][i - 1] == templates[i];
      r
  }

  // ------------------------------------------------------------ page state

  datatype PackingState = PackingState(categories: seq<Category>, newItemText: string, activeCategory: string,
                                       newListName: string, currentTemplate: string)

  function Initial(): PackingState
  {
    PackingState(InitialCategories, "", "essentials", DefaultListName, "custom")
  }

  /** `addItem`: blank (all-whitespace) text changes nothing; otherwise append and clear the input. */
  function AfterAdd(s: PackingState, stamp: string): (r: PackingState)
    ensures Trim(s.newItemText) == [] ==> r == s
    ensures Trim(s.newItemText) != [] ==> r.newItemText == "" && |r.categories| == |s.categories|
    ensures r.activeCategory == s.activeCategory && r.newListName == s.newListName
            && r.currentTemplate == s.currentTemplate
  {
    if Trim(s.newItemText) == [] then s
    else s.(categories := AppendItem(s.categories, s.activeCategory, s.newItemText, stamp), newItemText := "")
  }

  /** Loading a template starts the list over from the initial categories and remembers the template. */
  function AfterLoadTemplate(s: PackingState, templateId: string): (r: PackingState)
    ensures r.categories == InitialCategories
    ensures r.currentTemplate == templateId && r.newItemText == s.newItemText && r.activeCategory == s.activeCategory
  {
    s.(currentTemplate := templateId, newListName := TemplateName(ListTemplates, templateId),
       categories := InitialCategories)
  }

  // ------------------------------------------------------------ properties

  /** Toggling flips exactly the items with that id in the categories with that id. */
  lemma ToggleFlipsOnlyTarget(cats: seq<Category>, categoryId: string, itemId: string)
    ensures var r := Toggle(cats, categoryId, itemId);
      && |r| == |cats|
      && (forall i :: 0 <= i < |cats| ==> r[i].id == cats[i].id && r[i].name == cats[i].name
                                          && |r[i].items| == |cats[i].items|)
      && (forall i, j :: 0 <= i < |cats| && 0 <= j < |cats[i].items| ==>
            && r[i].items[j].id == cats[i].items[j].id && r[i].items[j].name == cats[i].items[j].name
            && (r[i].items[j].checked <==>
                  (cats[i].items[j].checked != (cats[i].id == categoryId && cats[i].items[j].id == itemId))))
  {
  }

  /** Toggling the same item twice restores the list. */
  lemma ToggleTwice(cats: seq<Category>, categoryId: string, itemId: string)
    ensures Toggle(Toggle(cats, categoryId, itemId), categoryId, itemId) == cats
  {
    var r := Toggle(Toggle(cats, categoryId, itemId), categoryId, itemId);
    forall i | 0 <= i < |cats| ensures r[i] == cats[i] {
      if cats[i].id == categoryId {
        assert r[i].items == cats[i].items;
      }
    }
  }

  /** Whitespace-only input changes nothing at all, not even the input text. */
  lemma AddBlankIsNoop(s: PackingState, stamp: string)
    requires forall i :: 0 <= i < |s.newItemText| ==> IsSpace(s.newItemText[i])
    ensures AfterAdd(s, stamp) == s
  {
    TrimEmptyIff(s.newItemText);
  }

  /** Other input appends one unchecked item with the untrimmed text to the active category only, then clears the input. */
  lemma AddAppendsToActive(s: PackingState, stamp: string)
    requires exists i :: 0 <= i < |s.newItemText| && !IsSpace(s.newItemText[i])
    ensures var t := AfterAdd(s, stamp);
      && t.newItemText == ""
      && |t.categories| == |s.categories|
      && (forall i :: 0 <= i < |s.categories| && s.categories[i].id == s.activeCategory ==>
            t.categories[i].items == s.categories[i].items + [Item(s.activeCategory + "-" + stamp, s.newItemText, false)])
      && (forall i :: 0 <= i < |s.categories| && s.categories[i].id != s.activeCategory ==>
            t.categories[i] == s.categories[i])
      && t.activeCategory == s.activeCategory && t.newListName == s.newListName
  {
    TrimEmptyIff(s.newItemText);
  }

  /** Deleting keeps, in order, the other items of that category; other categories are untouched. */
  lemma DeleteKeepsOrder(items1: seq<Item>, items2: seq<Item>, itemId: string)
    ensures RemoveItems(items1 + items2, itemId) == RemoveItems(items1, itemId) + RemoveItems(items2, itemId)
    ensures (forall i :: 0 <= i < |items1| ==> items1[i].id != itemId) ==> RemoveItems(items1, itemId) == items1
  {
    Seqs.FilterConcat(items1, items2, (it: Item) => it.id != itemId);
    if forall i :: 0 <= i < |items1| ==> items1[i].id != itemId {
      Seqs.FilterKeepsAll(items1, (it: Item) => it.id != itemId);
    }
  }

  lemma {:induction false} CountCheckedNone(items: seq<Item>)
    requires forall i :: 0 <= i < |items| ==> !items[i].checked
    ensures CountChecked(items) == 0
  {
    if items != [] {
      CountCheckedNone(items[1..]);
    }
  }

  lemma {:induction false} CountCheckedAll(items: seq<Item>)
    requires forall i :: 0 <= i < |items| ==> items[i].checked
    ensures CountChecked(items) == |items|
  {
    if items != [] {
      CountCheckedAll(items[1..]);
    }
  }

  /** The exact half-up rounding of 100c/n: within half a point, between 0 and 100, 0 and 100 at the ends. */
  lemma RoundPercentIsRounding(c: nat, n: nat)
    requires 0 < n && c <= n
    ensures var r := RoundPercent(c, n);
      && RoundsPercent(r, c, n)
      && r <= 100
      && (c == 0 ==> r == 0)
      && (c == n ==> r == 100)
  {
    DivBracket(200 * c + n, 2 * n);
    RoundedPercentRange(RoundPercent(c, n), c, n);
  }

  /** Euclidean division brackets its dividend between two multiples of the divisor. */
  lemma DivBracket(x: nat, m: nat)
    requires 0 < m
    ensures m * (x / m) <= x < m * (x / m + 1)
  {
    assert x == m * (x / m) + x % m && 0 <= x % m < m;
    assert m * (x / m + 1) == m * (x / m) + m;
  }

  /** A rounded share of at most everything is at most 100, and is exact at 0 and at everything. */
  lemma RoundedPercentRange(r: nat, c: nat, n: nat)
    requires 0 < n && c <= n && RoundsPercent(r, c, n)
    ensures r <= 100 && (c == 0 ==> r == 0) && (c == n ==> r == 100)
  {
    var m := 2 * n;
    assert m * (r + 1) == m * r + m;
    if r > 100 {
      MulMonotone(m, 101, r);
      assert false;
    }
    if c == 0 && r > 0 {
      MulMonotone(m, 1, r);
      assert false;
    }
    if c == n && r < 100 {
      MulMonotone(m, r + 1, 100);
      assert false;
    }
  }

  lemma MulMonotone(m: nat, a: nat, b: nat)
    requires a <= b
    ensures m * a <= m * b
  {
  }

  /** Category progress is in [0, 100]: 0 when nothing (or nothing there) is checked, 100 when everything is. */
  lemma CategoryProgressBounds(cats: seq<Category>, categoryId: string)
    ensures CategoryProgress(cats, categoryId) <= 100
    ensures var c := FindCategory(cats, categoryId);
      c.Some? && (forall j :: 0 <= j < |c.value.items| ==> !c.value.items[j].checked) ==> CategoryProgress(cats, categoryId) == 0
    ensures var c := FindCategory(cats, categoryId);
      c.Some? && |c.value.items| > 0 && (forall j :: 0 <= j < |c.value.items| ==> c.value.items[j].checked) ==>
        CategoryProgress(cats, categoryId) == 100
    ensures var c := FindCategory(cats, categoryId); var r := CategoryProgress(cats, categoryId);
      c.Some? && |c.value.items| > 0 ==>
        RoundsPercent(r, CountChecked(c.value.items), |c.value.items|)
  {
    var c := FindCategory(cats, categoryId);
    if c.Some? && |c.value.items| > 0 {
      RoundPercentIsRounding(CountChecked(c.value.items), |c.value.items|);
      if forall j :: 0 <= j < |c.value.items| ==> !c.value.items[j].checked {
        CountCheckedNone(c.value.items);
      }
      if forall j :: 0 <= j < |c.value.items| ==> c.value.items[j].checked {
        CountCheckedAll(c.value.items);
      }
    }
  }

  /** Overall progress is in [0, 100] and is the rounded share of checked items among all items. */
  lemma OverallProgressBounds(cats: seq<Category>)
    ensures OverallProgress(cats) <= 100
    ensures TotalItems(cats) > 0 ==>
      RoundsPercent(OverallProgress(cats), TotalChecked(cats), TotalItems(cats))
  {
    if TotalItems(cats) > 0 {
      RoundPercentIsRounding(TotalChecked(cats), TotalItems(cats));
    }
  }

  /** Loading a template restores the initial categories and names the list after it, or "My Trip". */
  lemma LoadTemplateResets(s: PackingState, templateId: string)
    ensures var t := AfterLoadTemplate(s, templateId);
      && t.categories == InitialCategories && t.currentTemplate == templateId
      && t.newItemText == s.newItemText && t.activeCategory == s.activeCategory
      && (templateId == "beach" ==> t.newListName == "Beach Vacation \U{1F3D6}\U{FE0F}")
      && (templateId == "business" ==> t.newListName == "Business Trip \U{1F4BC}")
      && (templateId == "camping" ==> t.newListName == "Camping Trip \U{1F3D5}\U{FE0F}")
      && (templateId == "skiing" ==> t.newListName == "Ski Trip \U{26F7}\U{FE0F}")
      && (templateId !in {"beach", "business", "camping", "skiing"} ==> t.newListName == DefaultListName)
  {
    var l := ListTemplates;
    assert l[0].id == "beach" && l[1].id == "business" && l[2].id == "camping" && l[3].id == "skiing";
    if templateId !in {"beach", "business", "camping", "skiing"} {
      forall i | 0 <= i < |l| ensures l[i].id != templateId {
        assert i == 0 || i == 1 || i == 2 || i == 3;
      }
    }
  }

  /** A fresh list is 0% done: every initial item is unchecked. */
  lemma InitialProgressZero()
    ensures OverallProgress(InitialCategories) == 0
  {
    var c := InitialCategories;
    forall k | 0 <= k < |c| ensures CountChecked(c[k].items) == 0 {
      CountCheckedNone(c[k].items);
    }
    TotalCheckedNone(c);
  }

  lemma {:induction false} TotalCheckedNone(cats: seq<Category>)
    requires forall k :: 0 <= k < |cats| ==> CountChecked(cats[k].items) == 0
    ensures TotalChecked(cats) == 0
  {
    if cats != [] {
      TotalCheckedNone(cats[1..]);
    }
  }

  // ------------------------------------------------------------ the page

  class PackingListPage {
    var categories: seq<Category>
    var newItemText: string
    var activeCategory: string
    var newListName: string
    var currentTemplate: string

    function State(): PackingState
      reads this
    {
      PackingState(categories, newItemText, activeCategory, newListName, currentTemplate)
    }

    constructor ()
      ensures State() == Initial()
    {
      categories := InitialCategories;
      newItemText := "";
      activeCategory := "essentials";
      newListName := DefaultListName;
      currentTemplate := "custom";
    }

    method ToggleItem(categoryId: string, itemId: string)
      modifies this
      ensures State() == old(State()).(categories := Toggle(old(categories), categoryId, itemId))
    {
      categories := Toggle(categories, categoryId, itemId);
    }

    /** `addItem`; the `Date.now()` part of the new id is a parameter. */
    method AddItem(stamp: string)
      modifies this
      ensures State() == AfterAdd(old(State()), stamp)
    {
      if Trim(newItemText) == [] {
        return;
      }
      categories := AppendItem(categories, activeCategory, newItemText, stamp);
      newItemText := "";
    }

    method DeleteItem(categoryId: string, itemId: string)
      modifies this
      ensures State() == old(State()).(categories := Delete(old(categories), categoryId, itemId))
    {
      categories := Delete(categories, categoryId, itemId);
    }

    method LoadTemplate(templateId: string)
      modifies this
      ensures State() == AfterLoadTemplate(old(State()), templateId)
    {
      currentTemplate := templateId;
      newListName := TemplateName(ListTemplates, templateId);
      categories := InitialCategories;
    }
  }
}
