/** The three small editors for dictionary entries (frontend/src/components/DictionaryDialogs.tsx):
    a name-only dialog for statuses and types, and dialogs that add a parent type or category.
    Each resets its fields when opened and lets "save" through only with a non-blank name
    and, where there is one, a chosen parent. */
module DictionaryDialogs {
  import opened Common
  import opened Types
  import CashFlowFormDialog

  /** The characters `String.prototype.trim` removes: ECMAScript WhiteSpace and LineTerminator. */
  predicate IsJsWhitespace(c: char) {
    || c == ' ' || c == '\t' || c == '\n' || c == '\U{000B}' || c == '\U{000C}' || c == '\r'
    || c == '\U{00A0}' || c == '\U{1680}' || ('\U{2000}' <= c <= '\U{200A}')
    || c == '\U{2028}' || c == '\U{2029}' || c == '\U{202F}' || c == '\U{205F}'
    || c == '\U{3000}' || c == '\U{FEFF}'
  }

  function TrimStart(s: string): string {
    if s != [] && IsJsWhitespace(s[0]) then TrimStart(s[1..]) else s
  }

  function TrimEnd(s: string): string {
    if s != [] && IsJsWhitespace(s[|s| - 1]) then TrimEnd(s[..|s| - 1]) else s
  }

  /** `s.trim()`. */
  function Trim(s: string): string {
    TrimEnd(TrimStart(s))
  }

  predicate IsBlank(s: string) {
    forall i :: 0 <= i < |s| ==> IsJsWhitespace(s[i])
  }

  lemma {:induction false} TrimStartEmptyIffBlank(s: string)
    ensures TrimStart(s) == "" <==> IsBlank(s)
    ensures TrimStart(s) != "" ==> !IsJsWhitespace(TrimStart(s)[0])
  {
    if s != [] && IsJsWhitespace(s[0]) {
      TrimStartEmptyIffBlank(s[1..]);
      assert IsBlank(s) <==> IsBlank(s[1..]) by {
        if IsBlank(s[1..]) {
          forall i | 0 <= i < |s| ensures IsJsWhitespace(s[i]) {
            if i > 0 { assert s[i] == s[1..][i - 1]; }
          }
        }
      }
    }
  }

  lemma {:induction false} TrimEndKeepsNonWhitespaceHead(s: string)
    requires s != [] && !IsJsWhitespace(s[0])
    ensures TrimEnd(s) != "" && TrimEnd(s)[0] == s[0]
  {
    if IsJsWhitespace(s[|s| - 1]) {
      assert |s| > 1;
      TrimEndKeepsNonWhitespaceHead(s[..|s| - 1]);
    }
  }

  /** `name.trim()` is empty exactly when every character of `name` is white space. */
  lemma TrimEmptyIffBlank(s: string)
    ensures Trim(s) == "" <==> IsBlank(s)
  {
    TrimStartEmptyIffBlank(s);
    if TrimStart(s) != "" {
      TrimEndKeepsNonWhitespaceHead(TrimStart(s));
    }
  }

  /** `!name.trim()` disables saving. */
  predicate NameAccepted(name: string) {
    Trim(name) != ""
  }

  /** The parent menus list every entry of the list they are given, in order, by id: unlike
      the record form's menus they are not narrowed by anything. */
  function TypeMenu(types: seq<CashFlowType>): (r: seq<ID>)
    ensures |r| == |types| && forall i :: 0 <= i < |types| ==> r[i] == types[i].id
    ensures forall t :: t in types ==> t.id in r
    ensures forall x :: x in r ==> exists t :: t in types && t.id == x
  {
    seq(|types|, i requires 0 <= i < |types| => types[i].id)
  }

  function CategoryMenu(categories: seq<Category>): (r: seq<ID>)
    ensures |r| == |categories| && forall i :: 0 <= i < |categories| ==> r[i] == categories[i].id
    ensures forall c :: c in categories ==> c.id in r
    ensures forall x :: x in r ==> exists c :: c in categories && c.id == x
  {
    seq(|categories|, i requires 0 <= i < |categories| => categories[i].id)
  }

  /** A new subcategory may be put under any category, whatever its type, while the record
      form, once a type is chosen, offers only the categories of that type. */
  lemma SubcategoryParentMenuIsUnfiltered(categories: seq<Category>, t: ID, c: Category)
    requires c in categories && c.cashFlowType != t
    ensures c.id in CategoryMenu(categories)
    ensures c !in CashFlowFormDialog.CategoryOptions(categories, Some(t))
  {
  }

  /** What the category dialog emits, and what the subcategory dialog emits. */
  datatype CategoryPayload = CategoryPayload(name: string, cashFlowType: ID)

  datatype SubcategoryPayload = SubcategoryPayload(name: string, category: ID)

  /** The `initial` props of the category and subcategory dialogs. The parent id is optional:
      the table seeds a new category with the first type's id, which is undefined when there is none. */
  datatype CategoryInitial = CategoryInitial(name: string, cashFlowType: Option<ID>)

  datatype SubcategoryInitial = SubcategoryInitial(name: string, category: Option<ID>)

  /** `SimpleNameDialog`. */
  class SimpleNameDialog {
    var name: string

    constructor ()
      ensures name == ""
    {
      name := "";
    }

    /** The effect on opening: the name becomes `initialName`, or blank. */
    method Open(initialName: Option<string>)
      modifies this
      ensures name == (if initialName.Some? then initialName.value else "")
    {
      name := if initialName.Some? then initialName.value else "";
    }

    method ChangeName(text: string)
      modifies this
      ensures name == text
    {
      name := text;
    }

    /** The save button: enabled iff the trimmed name is non-empty; hands on the name as typed. */
    method Save() returns (submitted: Option<string>)
      ensures submitted.Some? <==> !IsBlank(name)
      ensures submitted.Some? ==> submitted.value == name
    {
      TrimEmptyIffBlank(name);
      submitted := if Trim(name) != "" then Some(name) else None;
    }
  }

  /** `CategoryDialog`. */
  class CategoryDialog {
    var name: string
    var typeId: Option<ID>

    constructor ()
      ensures name == "" && typeId.None?
    {
      name, typeId := "", None;
    }

    method Open(initial: Option<CategoryInitial>)
      modifies this
      ensures name == (if initial.Some? then initial.value.name else "")
      ensures typeId == (if initial.Some? then initial.value.cashFlowType else None)
    {
      name := if initial.Some? then initial.value.name else "";
      typeId := if initial.Some? then initial.value.cashFlowType else None;
    }

    method ChangeName(text: string)
      modifies this
      ensures name == text && typeId == old(typeId)
    {
      name := text;
    }

    /** An entry of the (unfiltered) type menu, or the blank item. */
    method ChooseType(types: seq<CashFlowType>, choice: Option<ID>)
      requires choice.None? || choice.value in TypeMenu(types)
      modifies this
      ensures typeId == choice && name == old(name)
      ensures typeId.Some? ==> exists t :: t in types && t.id == typeId.value
    {
      typeId := choice;
    }

    method Save() returns (submitted: Option<CategoryPayload>)
      ensures submitted.Some? <==> !IsBlank(name) && typeId.Some?
      ensures submitted.Some? ==> submitted.value == CategoryPayload(name, typeId.value)
    {
      TrimEmptyIffBlank(name);
      submitted := if Trim(name) != "" && typeId.Some? then Some(CategoryPayload(name, typeId.value)) else None;
    }
  }

  /** `SubcategoryDialog`. */
  class SubcategoryDialog {
    var name: string
    var categoryId: Option<ID>

    constructor ()
      ensures name == "" && categoryId.None?
    {
      name, categoryId := "", None;
    }

    method Open(initial: Option<SubcategoryInitial>)
      modifies this
      ensures name == (if initial.Some? then initial.value.name else "")
      ensures categoryId == (if initial.Some? then initial.value.category else None)
    {
      name := if initial.Some? then initial.value.name else "";
      categoryId := if initial.Some? then initial.value.category else None;
    }

    method ChangeName(text: string)
      modifies this
      ensures name == text && categoryId == old(categoryId)
    {
      name := text;
    }

    /** An entry of the (unfiltered) category menu, or the blank item. */
    method ChooseCategory(categories: seq<Category>, choice: Option<ID>)
      requires choice.None? || choice.value in CategoryMenu(categories)
      modifies this
      ensures categoryId == choice && name == old(name)
      ensures categoryId.Some? ==> exists c :: c in categories && c.id == categoryId.value
    {
      categoryId := choice;
    }

    method Save() returns (submitted: Option<SubcategoryPayload>)
      ensures submitted.Some? <==> !IsBlank(name) && categoryId.Some?
      ensures submitted.Some? ==> submitted.value == SubcategoryPayload(name, categoryId.value)
    {
      TrimEmptyIffBlank(name);
      submitted := if Trim(name) != "" && categoryId.Some? then Some(SubcategoryPayload(name, categoryId.value)) else None;
    }
  }
}
