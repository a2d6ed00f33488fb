/** The server's record serialisers (backend/cash_flow/serializers.py): the cross-reference
    check on an incoming cash-flow record, the amount check, and the read-only `*_name`
    fields the server adds when it sends a record out. */
module Serializers {
  import opened Common
  import Types

  // ---------------------------------------------------------------------------------------
  // Stored rows. A foreign key field resolves to the referenced row before `validate` runs.

  datatype StatusRow = StatusRow(id: ID, name: string)

  datatype TypeRow = TypeRow(id: ID, name: string)

  datatype CategoryRow = CategoryRow(id: ID, name: string, cashFlowTypeId: ID)

  datatype SubcategoryRow = SubcategoryRow(id: ID, name: string, categoryId: ID)

  /** The validated input of a create or a (possibly partial) update: a field the request
      did not carry is `None`, which is what `data.get` returns for it. */
  datatype CashFlowInput = CashFlowInput(
    status: Option<StatusRow>,
    cashFlowType: Option<TypeRow>,
    category: Option<CategoryRow>,
    subcategory: Option<SubcategoryRow>,
    amount: Option<real>,
    comment: Option<string>)

  /** `ValidationError({field: message})`. */
  datatype ValidationError = ValidationError(field: string, message: string)

  datatype Validated<T> = Accepted(value: T) | Rejected(error: ValidationError)

  const SubcategoryError := ValidationError("subcategory", "Subcategory does not belong to the selected category.")
  const CategoryError := ValidationError("category", "Category does not belong to the selected cash flow type.")
  const AmountError := ValidationError("amount", "Amount must be positive")

  /** Both ends of the subcategory-category link are in the data and disagree. */
  predicate SubcategoryMismatch(data: CashFlowInput) {
    data.subcategory.Some? && data.category.Some? && data.subcategory.value.categoryId != data.category.value.id
  }

  /** Both ends of the category-type link are in the data and disagree. */
  predicate CategoryMismatch(data: CashFlowInput) {
    data.cashFlowType.Some? && data.category.Some? && data.category.value.cashFlowTypeId != data.cashFlowType.value.id
  }

  /** A complete record whose subcategory lies under its category and whose category lies under its type. */
  predicate Consistent(data: CashFlowInput) {
    && data.cashFlowType.Some? && data.category.Some? && data.subcategory.Some?
    && data.subcategory.value.categoryId == data.category.value.id
    && data.category.value.cashFlowTypeId == data.cashFlowType.value.id
  }

  /** `CashFlowSerializer.validate`: the subcategory check, then the category check; the data
      passes through unchanged. */
  function Validate(data: CashFlowInput): (r: Validated<CashFlowInput>)
    ensures r.Rejected? <==> SubcategoryMismatch(data) || CategoryMismatch(data)
    ensures r.Accepted? ==> r.value == data
  {
    if SubcategoryMismatch(data) then Rejected(SubcategoryError)
    else if CategoryMismatch(data) then Rejected(CategoryError)
    else Accepted(data)
  }

  /** A mismatched subcategory is reported whatever the type and category say, and the
      category error only when the subcategory is fine. */
  lemma ValidateErrorOrder(data: CashFlowInput)
    ensures SubcategoryMismatch(data) ==> Validate(data) == Rejected(SubcategoryError)
    ensures !SubcategoryMismatch(data) && CategoryMismatch(data) ==> Validate(data) == Rejected(CategoryError)
  {
  }

  /** A complete record is accepted exactly when it is consistent. */
  lemma ValidateCompleteIffConsistent(data: CashFlowInput)
    requires data.cashFlowType.Some? && data.category.Some? && data.subcategory.Some?
    ensures Validate(data).Accepted? <==> Consistent(data)
  {
  }

  /** A missing category skips both checks, and a missing subcategory or type skips its own. */
  lemma MissingFieldSkipsChecks(data: CashFlowInput)
    ensures data.category.None? ==> Validate(data) == Accepted(data)
    ensures data.subcategory.None? ==> Validate(data) == (if CategoryMismatch(data) then Rejected(CategoryError) else Accepted(data))
    ensures data.cashFlowType.None? ==> Validate(data) == (if SubcategoryMismatch(data) then Rejected(SubcategoryError) else Accepted(data))
  {
  }

  /** Both links broken: the subcategory error is the one raised. */
  lemma BothMismatchedReportsSubcategory()
    ensures
      var data := CashFlowInput(None, Some(TypeRow(1, "Income")), Some(CategoryRow(2, "Salary", 3)),
                                Some(SubcategoryRow(4, "Bonus", 5)), Some(10.0), None);
      SubcategoryMismatch(data) && CategoryMismatch(data) && Validate(data) == Rejected(SubcategoryError)
  {
  }

  /** `validate_amount`: non-positive amounts are refused. */
  function ValidateAmount(value: real): (r: Validated<real>)
    ensures r.Accepted? <==> value > 0.0
    ensures r.Accepted? ==> r.value == value
    ensures r.Rejected? ==> r.error == AmountError
  {
    if value <= 0.0 then Rejected(AmountError) else Accepted(value)
  }

  // ---------------------------------------------------------------------------------------
  // A partial update against the stored record

  /** The stored record an update is applied to: its references as resolved rows, and its
      own amount and comment. */
  datatype StoredRecord = StoredRecord(
    status: StatusRow, cashFlowType: TypeRow, category: CategoryRow, subcategory: SubcategoryRow,
    amount: real, comment: string)

  function OrElse<T>(o: Option<T>, fallback: T): (r: T)
    ensures o.Some? ==> r == o.value
    ensures o.None? ==> r == fallback
  {
    if o.Some? then o.value else fallback
  }

  /** The record as it will be stored once a partial update is applied: the update assigns
      only the fields the request carried, so every field is present, and for each one a sent
      value wins over the stored one. */
  function Merged(data: CashFlowInput, stored: StoredRecord): (r: CashFlowInput)
    ensures r.status.Some? && r.cashFlowType.Some? && r.category.Some? && r.subcategory.Some?
    ensures r.amount.Some? && r.comment.Some?
    ensures data.status.Some? ==> r.status == data.status
    ensures data.status.None? ==> r.status == Some(stored.status)
    ensures data.cashFlowType.Some? ==> r.cashFlowType == data.cashFlowType
    ensures data.cashFlowType.None? ==> r.cashFlowType == Some(stored.cashFlowType)
    ensures data.category.Some? ==> r.category == data.category
    ensures data.category.None? ==> r.category == Some(stored.category)
    ensures data.subcategory.Some? ==> r.subcategory == data.subcategory
    ensures data.subcategory.None? ==> r.subcategory == Some(stored.subcategory)
    ensures data.amount.Some? ==> r.amount == data.amount
    ensures data.amount.None? ==> r.amount == Some(stored.amount)
    ensures data.comment.Some? ==> r.comment == data.comment
    ensures data.comment.None? ==> r.comment == Some(stored.comment)
  {
    CashFlowInput(
      Some(OrElse(data.status, stored.status)),
      Some(OrElse(data.cashFlowType, stored.cashFlowType)),
      Some(OrElse(data.category, stored.category)),
      Some(OrElse(data.subcategory, stored.subcategory)),
      Some(OrElse(data.amount, stored.amount)),
      Some(OrElse(data.comment, stored.comment)))
  }

  /** As written, a partial update that changes only the subcategory is accepted although the
      record it produces puts the subcategory under a category it does not belong to. */
  lemma PartialUpdateEscapesValidate()
    ensures
      var stored := StoredRecord(StatusRow(1, "Paid"), TypeRow(1, "Expense"), CategoryRow(1, "Rent", 1), SubcategoryRow(1, "Office", 1), 50.0, "");
      var patch := CashFlowInput(None, None, None, Some(SubcategoryRow(7, "Fuel", 2)), None, None);
      Validate(patch) == Accepted(patch) && !Consistent(Merged(patch, stored))
  {
  }

  /** The check the docstring describes, for updates: run the same checks on the merged record,
      and hand on the request data unchanged. */
  function ValidateUpdate(data: CashFlowInput, stored: StoredRecord): (r: Validated<CashFlowInput>)
    ensures r.Accepted? ==> r.value == data
  {
    match Validate(Merged(data, stored))
    case Accepted(_) => Accepted(data)
    case Rejected(e) => Rejected(e)
  }

  /** With the corrected check, every accepted update leaves a consistent stored record, and a
      consistent result is never refused; with every field present it agrees with `Validate`. */
  lemma ValidateUpdateKeepsRecordConsistent(data: CashFlowInput, stored: StoredRecord)
    ensures ValidateUpdate(data, stored).Accepted? <==> Consistent(Merged(data, stored))
    ensures data.cashFlowType.Some? && data.category.Some? && data.subcategory.Some? ==>
              ValidateUpdate(data, stored) == Validate(data)
  {
    var m := Merged(data, stored);
    ValidateCompleteIffConsistent(m);
    if data.cashFlowType.Some? && data.category.Some? && data.subcategory.Some? {
      assert SubcategoryMismatch(m) == SubcategoryMismatch(data);
      assert CategoryMismatch(m) == CategoryMismatch(data);
    }
  }

  // ---------------------------------------------------------------------------------------
  // Outgoing records: the read-only `*_name` fields

  /** The tables a serialiser reads, keyed by id. */
  datatype Db = Db(
    statuses: map<ID, StatusRow>,
    types: map<ID, TypeRow>,
    categories: map<ID, CategoryRow>,
    subcategories: map<ID, SubcategoryRow>)

  /** A stored cash-flow row: its own columns and the ids it refers to. */
  datatype CashFlowRow = CashFlowRow(
    id: ID, status: ID, cashFlowType: ID, category: ID, subcategory: ID,
    amount: string, createdAt: string, comment: string)

  /** Foreign keys resolve (the database guarantees it). */
  predicate Resolves(db: Db, row: CashFlowRow) {
    row.status in db.statuses && row.cashFlowType in db.types
    && row.category in db.categories && row.subcategory in db.subcategories
  }

  /** `CashFlowSerializer` on output: the stored columns, plus each referenced row's current name. */
  function SerializeCashFlow(row: CashFlowRow, db: Db): (r: Types.CashFlow)
    requires Resolves(db, row)
    ensures r.id == row.id && r.status == row.status && r.cashFlowType == row.cashFlowType
    ensures r.category == row.category && r.subcategory == row.subcategory
    ensures r.amount == row.amount && r.createdAt == row.createdAt && r.comment == row.comment
  {
    Types.CashFlow(
      row.id, row.status, row.cashFlowType, row.category,
      db.types[row.cashFlowType].name, db.categories[row.category].name,
      row.subcategory, db.subcategories[row.subcategory].name,
      row.amount, row.createdAt, row.comment, db.statuses[row.status].name)
  }

  /** `CategorySerializer` on output. */
  function SerializeCategory(c: CategoryRow, db: Db): (r: Types.Category)
    requires c.cashFlowTypeId in db.types
    ensures r.id == c.id && r.name == c.name && r.cashFlowType == c.cashFlowTypeId
  {
    Types.Category(c.id, c.name, c.cashFlowTypeId, db.types[c.cashFlowTypeId].name)
  }

  /** `SubcategorySerializer` on output. */
  function SerializeSubcategory(s: SubcategoryRow, db: Db): (r: Types.Subcategory)
    requires s.categoryId in db.categories
    ensures r.id == s.id && r.name == s.name && r.category == s.categoryId
  {
    Types.Subcategory(s.id, s.name, s.categoryId, db.categories[s.categoryId].name)
  }

  /** The names are not stored copies: renaming a category changes the `category_name` of
      every record and subcategory under it at the next serialisation, and nothing else. */
  lemma CategoryRenameShowsThrough(row: CashFlowRow, s: SubcategoryRow, db: Db, id: ID, newName: string)
    requires Resolves(db, row) && s.categoryId in db.categories && id in db.categories
    ensures
      var db2 := db.(categories := db.categories[id := db.categories[id].(name := newName)]);
      && Resolves(db2, row)
      && SerializeCashFlow(row, db2) ==
           (if row.category == id then SerializeCashFlow(row, db).(categoryName := newName) else SerializeCashFlow(row, db))
      && SerializeSubcategory(s, db2) ==
           (if s.categoryId == id then SerializeSubcategory(s, db).(categoryName := newName) else SerializeSubcategory(s, db))
  {
  }

  /** The same for a renamed type: `cash_flow_type_name` follows it on records and categories. */
  lemma TypeRenameShowsThrough(row: CashFlowRow, c: CategoryRow, db: Db, id: ID, newName: string)
    requires Resolves(db, row) && c.cashFlowTypeId in db.types && id in db.types
    ensures
      var db2 := db.(types := db.types[id := db.types[id].(name := newName)]);
      && Resolves(db2, row)
      && SerializeCashFlow(row, db2) ==
           (if row.cashFlowType == id then SerializeCashFlow(row, db).(cashFlowTypeName := newName) else SerializeCashFlow(row, db))
      && SerializeCategory(c, db2) ==
           (if c.cashFlowTypeId == id then SerializeCategory(c, db).(cashFlowTypeName := newName) else SerializeCategory(c, db))
  {
  }

  /** And for renamed statuses and subcategories. */
  lemma StatusAndSubcategoryRenameShowThrough(row: CashFlowRow, db: Db, statusId: ID, statusName: string, subId: ID, subName: string)
    requires Resolves(db, row) && statusId in db.statuses && subId in db.subcategories
    ensures
      var db2 := db.(statuses := db.statuses[statusId := db.statuses[statusId].(name := statusName)]);
      var db3 := db.(subcategories := db.subcategories[subId := db.subcategories[subId].(name := subName)]);
      && Resolves(db2, row) && Resolves(db3, row)
      && SerializeCashFlow(row, db2) ==
           (if row.status == statusId then SerializeCashFlow(row, db).(statusName := statusName) else SerializeCashFlow(row, db))
      && SerializeCashFlow(row, db3) ==
           (if row.subcategory == subId then SerializeCashFlow(row, db).(subcategoryName := subName) else SerializeCashFlow(row, db))
  {
  }
}
