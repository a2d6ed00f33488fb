/** The records the client exchanges with the server (frontend/src/types.ts). */
module Types {
  import opened Common

  datatype Status = Status(id: ID, name: string)

  datatype CashFlowType = CashFlowType(id: ID, name: string)

  /** `cashFlowTypeName` is the server's copy of the parent type's name at fetch time. */
  datatype Category = Category(id: ID, name: string, cashFlowType: ID, cashFlowTypeName: string)

  datatype Subcategory = Subcategory(id: ID, name: string, category: ID, categoryName: string)

  /** A ledger record as the server serialises it; `amount` is a decimal string. */
  datatype CashFlow = CashFlow(
    id: ID,
    status: ID,
    cashFlowType: ID,
    category: ID,
    cashFlowTypeName: string,
    categoryName: string,
    subcategory: ID,
    subcategoryName: string,
    amount: string,
    createdAt: string,
    comment: string,
    statusName: string)

  /** One page of a collection; `next` and `previous` are absolute URLs or null. */
  datatype Paginated<T> = Paginated(count: nat, next: Option<string>, previous: Option<string>, results: seq<T>)

  /** The record-list filter. Every field is optional; `page` is not declared in the
      TypeScript interface but the page-size handler in App.tsx adds it. */
  datatype CashFlowFilters = CashFlowFilters(
    status: Option<ID>,
    cashFlowType: Option<ID>,
    category: Option<ID>,
    subcategory: Option<ID>,
    createdAtAfter: Option<string>,
    createdAtBefore: Option<string>,
    pageSize: Option<int>,
    ordering: Option<string>,
    page: Option<int>)

  /** The filter fields, so that "nothing else changes" can be said field by field. */
  datatype FilterField =
    | StatusField | TypeField | CategoryField | SubcategoryField
    | AfterField | BeforeField | PageSizeField | OrderingField | PageField

  datatype FieldValue = IdValue(id: Option<ID>) | TextValue(text: Option<string>) | NumberValue(number: Option<int>)
  {
    predicate IsUnset() {
      match this
      case IdValue(o) => o.None?
      case TextValue(o) => o.None?
      case NumberValue(o) => o.None?
    }
  }

  function Get(f: CashFlowFilters, field: FilterField): FieldValue {
    match field
    case StatusField => IdValue(f.status)
    case TypeField => IdValue(f.cashFlowType)
    case CategoryField => IdValue(f.category)
    case SubcategoryField => IdValue(f.subcategory)
    case AfterField => TextValue(f.createdAtAfter)
    case BeforeField => TextValue(f.createdAtBefore)
    case PageSizeField => NumberValue(f.pageSize)
    case OrderingField => TextValue(f.ordering)
    case PageField => NumberValue(f.page)
  }

  /** `f` and `g` hold the same value in every field outside `touched`. */
  predicate AgreeOutside(f: CashFlowFilters, g: CashFlowFilters, touched: set<FilterField>) {
    forall field :: field !in touched ==> Get(f, field) == Get(g, field)
  }

  /** "This category belongs to type `t`": the key of the category menus. */
  function OfType(t: ID): Category -> bool {
    (c: Category) => c.cashFlowType == t
  }

  /** "This subcategory belongs to category `c`": the key of the subcategory menus. */
  function OfCategory(c: ID): Subcategory -> bool {
    (s: Subcategory) => s.category == c
  }

  /** A pagination link is followed only when it is truthy: present and not empty. */
  predicate IsLink(link: Option<string>) {
    link.Some? && link.value != ""
  }

  /** The four dictionary sections of the console (`DictMode` in DictionaryTable.tsx). */
  datatype DictMode = Statuses | CashFlowTypes | Categories | Subcategories

  /** What the cash-flow form hands to its `onSubmit` (CashFlowFormDialog.tsx:22), minus the id:
      the body of a create or update request; a `None` comment is left out of the JSON. */
  datatype CashFlowPayload = CashFlowPayload(
    status: ID,
    cashFlowType: ID,
    category: ID,
    subcategory: ID,
    amount: string,
    comment: Option<string>)
}
