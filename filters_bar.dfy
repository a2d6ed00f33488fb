/** The record-list filter bar (frontend/src/components/FiltersBar.tsx). It keeps no state:
    every selector hands its parent a fresh filter built from the current one, and the
    category and subcategory menus are sub-lists of the dictionaries keyed on the parent. */
module FiltersBar {
  import opened Common
  import opened Types

  // ---------------------------------------------------------------------------------------
  // Menu contents

  /** `filteredCategories`: the categories of the chosen type, or every category when none is chosen. */
  function CategoryOptions(categories: seq<Category>, f: CashFlowFilters): (r: seq<Category>)
    ensures f.cashFlowType.None? ==> r == categories
    ensures f.cashFlowType.Some? ==>
              forall c :: c in r <==> c in categories && c.cashFlowType == f.cashFlowType.value
  {
    if f.cashFlowType.Some? then
      FilterMembership(categories, OfType(f.cashFlowType.value));
      Filter(categories, OfType(f.cashFlowType.value))
    else categories
  }

  /** `filteredSubcategories`: the same rule, keyed on the chosen category. */
  function SubcategoryOptions(subcategories: seq<Subcategory>, f: CashFlowFilters): (r: seq<Subcategory>)
    ensures f.category.None? ==> r == subcategories
    ensures f.category.Some? ==>
              forall s :: s in r <==> s in subcategories && s.category == f.category.value
  {
    if f.category.Some? then
      FilterMembership(subcategories, OfCategory(f.category.value));
      Filter(subcategories, OfCategory(f.category.value))
    else subcategories
  }

  /** The menus keep the dictionaries' order: the options of a concatenation are the
      concatenation of the options. */
  lemma OptionsKeepOrder(c1: seq<Category>, c2: seq<Category>, s1: seq<Subcategory>, s2: seq<Subcategory>, f: CashFlowFilters)
    ensures CategoryOptions(c1 + c2, f) == CategoryOptions(c1, f) + CategoryOptions(c2, f)
    ensures SubcategoryOptions(s1 + s2, f) == SubcategoryOptions(s1, f) + SubcategoryOptions(s2, f)
  {
    if f.cashFlowType.Some? {
      FilterConcat(c1, c2, OfType(f.cashFlowType.value));
    }
    if f.category.Some? {
      FilterConcat(s1, s2, OfCategory(f.category.value));
    }
  }

  /** A menu item's value is the option's id. */
  predicate OffersCategory(options: seq<Category>, id: ID) {
    exists i :: 0 <= i < |options| && options[i].id == id
  }

  predicate OffersSubcategory(options: seq<Subcategory>, id: ID) {
    exists i :: 0 <= i < |options| && options[i].id == id
  }

  // ---------------------------------------------------------------------------------------
  // Selector handlers; a `None` choice is the "all" item (the empty string in the menu)

  function SelectType(f: CashFlowFilters, choice: Option<ID>): (r: CashFlowFilters)
    ensures r.cashFlowType == choice && r.category.None? && r.subcategory.None?
    ensures AgreeOutside(f, r, {TypeField, CategoryField, SubcategoryField})
  {
    f.(cashFlowType := choice, category := None, subcategory := None)
  }

  function SelectCategory(f: CashFlowFilters, choice: Option<ID>): (r: CashFlowFilters)
    ensures r.category == choice && r.subcategory.None?
    ensures AgreeOutside(f, r, {CategoryField, SubcategoryField})
  {
    f.(category := choice, subcategory := None)
  }

  function SelectSubcategory(f: CashFlowFilters, choice: Option<ID>): (r: CashFlowFilters)
    ensures r.subcategory == choice
    ensures AgreeOutside(f, r, {SubcategoryField})
  {
    f.(subcategory := choice)
  }

  function SelectStatus(f: CashFlowFilters, choice: Option<ID>): (r: CashFlowFilters)
    ensures r.status == choice
    ensures AgreeOutside(f, r, {StatusField})
  {
    f.(status := choice)
  }

  /** `e.target.value || undefined`: an emptied date input removes the bound. */
  function DateInput(text: string): (r: Option<string>)
    ensures r.None? <==> text == ""
    ensures r.Some? ==> r.value == text
  {
    if text == "" then None else Some(text)
  }

  function EnterDateFrom(f: CashFlowFilters, text: string): (r: CashFlowFilters)
    ensures r.createdAtAfter == DateInput(text)
    ensures AgreeOutside(f, r, {AfterField})
  {
    f.(createdAtAfter := DateInput(text))
  }

  function EnterDateTo(f: CashFlowFilters, text: string): (r: CashFlowFilters)
    ensures r.createdAtBefore == DateInput(text)
    ensures AgreeOutside(f, r, {BeforeField})
  {
    f.(createdAtBefore := DateInput(text))
  }

  /** One user action on the bar. */
  datatype FilterEvent =
    | TypeChosen(typeChoice: Option<ID>)
    | CategoryChosen(categoryChoice: Option<ID>)
    | SubcategoryChosen(subcategoryChoice: Option<ID>)
    | StatusChosen(statusChoice: Option<ID>)
    | DateFromEntered(fromText: string)
    | DateToEntered(toText: string)

  /** The filter the bar passes to `onChange` for an action. */
  function OnChange(f: CashFlowFilters, e: FilterEvent): CashFlowFilters {
    match e
    case TypeChosen(t) => SelectType(f, t)
    case CategoryChosen(c) => SelectCategory(f, c)
    case SubcategoryChosen(s) => SelectSubcategory(f, s)
    case StatusChosen(s) => SelectStatus(f, s)
    case DateFromEntered(text) => EnterDateFrom(f, text)
    case DateToEntered(text) => EnterDateTo(f, text)
  }

  /** No handler ever touches the page size. */
  lemma OnChangeKeepsPageSize(f: CashFlowFilters, e: FilterEvent)
    ensures OnChange(f, e).pageSize == f.pageSize
  {
    assert Get(OnChange(f, e), PageSizeField) == Get(f, PageSizeField);
  }

  // ---------------------------------------------------------------------------------------
  // Consistency of the cascade

  predicate TypeOwnsCategory(categories: seq<Category>, typeId: ID, categoryId: ID) {
    exists c :: c in categories && c.id == categoryId && c.cashFlowType == typeId
  }

  predicate CategoryOwnsSubcategory(subcategories: seq<Subcategory>, categoryId: ID, subcategoryId: ID) {
    exists s :: s in subcategories && s.id == subcategoryId && s.category == categoryId
  }

  /** A chosen category belongs to the chosen type, and a chosen subcategory to the chosen category. */
  predicate Consistent(f: CashFlowFilters, categories: seq<Category>, subcategories: seq<Subcategory>) {
    && (f.category.Some? ==>
          f.cashFlowType.Some? && TypeOwnsCategory(categories, f.cashFlowType.value, f.category.value))
    && (f.subcategory.Some? ==>
          f.category.Some? && CategoryOwnsSubcategory(subcategories, f.category.value, f.subcategory.value))
  }

  /** What the bar lets a user do: the category menu is disabled without a type and the
      subcategory menu without a category, and a menu offers only its options. */
  predicate Permitted(f: CashFlowFilters, e: FilterEvent, categories: seq<Category>, subcategories: seq<Subcategory>) {
    match e
    case CategoryChosen(c) =>
      f.cashFlowType.Some? && (c.Some? ==> OffersCategory(CategoryOptions(categories, f), c.value))
    case SubcategoryChosen(s) =>
      f.category.Some? && (s.Some? ==> OffersSubcategory(SubcategoryOptions(subcategories, f), s.value))
    case _ => true
  }

  /** Every permitted action keeps the cascade consistent. */
  lemma OnChangePreservesConsistency(f: CashFlowFilters, e: FilterEvent, categories: seq<Category>, subcategories: seq<Subcategory>)
    requires Consistent(f, categories, subcategories)
    requires Permitted(f, e, categories, subcategories)
    ensures Consistent(OnChange(f, e), categories, subcategories)
  {
    match e
    case CategoryChosen(Some(id)) =>
      var options := CategoryOptions(categories, f);
      var i :| 0 <= i < |options| && options[i].id == id;
      assert options[i] in categories && options[i].cashFlowType == f.cashFlowType.value;
    case SubcategoryChosen(Some(id)) =>
      var options := SubcategoryOptions(subcategories, f);
      var i :| 0 <= i < |options| && options[i].id == id;
      assert options[i] in subcategories && options[i].category == f.category.value;
    case _ =>
  }

  function ApplyAll(f: CashFlowFilters, events: seq<FilterEvent>): CashFlowFilters
    decreases |events|
  {
    if events == [] then f else ApplyAll(OnChange(f, events[0]), events[1..])
  }

  /** Each action in the run is permitted in the state it meets. */
  predicate PermittedRun(f: CashFlowFilters, events: seq<FilterEvent>, categories: seq<Category>, subcategories: seq<Subcategory>)
    decreases |events|
  {
    events == [] ||
    (Permitted(f, events[0], categories, subcategories) &&
     PermittedRun(OnChange(f, events[0]), events[1..], categories, subcategories))
  }

  /** However long the run of permitted actions, the filter it ends in is consistent. */
  lemma {:induction false} RunPreservesConsistency(f: CashFlowFilters, events: seq<FilterEvent>, categories: seq<Category>, subcategories: seq<Subcategory>)
    requires Consistent(f, categories, subcategories)
    requires PermittedRun(f, events, categories, subcategories)
    ensures Consistent(ApplyAll(f, events), categories, subcategories)
    decreases |events|
  {
    if events != [] {
      OnChangePreservesConsistency(f, events[0], categories, subcategories);
      RunPreservesConsistency(OnChange(f, events[0]), events[1..], categories, subcategories);
    }
  }

  /** Choosing a type drops whatever category and subcategory were chosen under the old one. */
  lemma TypeChangeDropsChildren()
    ensures
      var before := CashFlowFilters(None, Some(1), Some(5), Some(9), None, None, Some(10), None, None);
      SelectType(before, Some(2)) == CashFlowFilters(None, Some(2), None, None, None, None, Some(10), None, None)
  {
  }
}
