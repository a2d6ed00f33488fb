/** The create/edit dialog for one ledger record (frontend/src/components/CashFlowFormDialog.tsx).
    Six input fields are component state; the type, category and subcategory selectors cascade,
    and the dialog hands a payload to its parent only when the input is complete and the amount
    is a positive number. */
module CashFlowFormDialog {
  import opened Common
  import opened Types

  /** What JavaScript's `Number(text)` gives: a finite value, or NaN / an infinity. */
  datatype JsNumber = Finite(value: real) | NotFinite

  /** `Number` itself is JavaScript's string-to-number conversion, which this model takes as given. */
  type NumberParser = string -> JsNumber

  /** The `initial` prop: a possibly partial record; the parent passes the row being edited. */
  datatype Initial = Initial(
    id: Option<ID>,
    status: Option<ID>,
    cashFlowType: Option<ID>,
    category: Option<ID>,
    subcategory: Option<ID>,
    amount: Option<string>,
    comment: Option<string>)

  /** A full server row as an `initial` prop. */
  function InitialOf(row: CashFlow): (r: Initial)
    ensures r.id == Some(row.id) && r.status == Some(row.status) && r.cashFlowType == Some(row.cashFlowType)
    ensures r.category == Some(row.category) && r.subcategory == Some(row.subcategory)
    ensures r.amount == Some(row.amount) && r.comment == Some(row.comment)
  {
    Initial(Some(row.id), Some(row.status), Some(row.cashFlowType), Some(row.category),
            Some(row.subcategory), Some(row.amount), Some(row.comment))
  }

  /** The six input fields; an unselected menu (the empty string in the source) is `None`. */
  datatype Fields = Fields(
    cashFlowType: Option<ID>,
    category: Option<ID>,
    subcategory: Option<ID>,
    status: Option<ID>,
    amount: string,
    comment: string)

  function OrEmpty(o: Option<string>): string {
    if o.Some? then o.value else ""
  }

  /** The fields as the reset-on-open effect sets them: from `initial` where it has a value, else blank. */
  function ResetFields(initial: Option<Initial>): (r: Fields)
    ensures initial.None? ==> r == Fields(None, None, None, None, "", "")
    ensures initial.Some? ==>
              && r.cashFlowType == initial.value.cashFlowType && r.category == initial.value.category
              && r.subcategory == initial.value.subcategory && r.status == initial.value.status
              && r.amount == OrEmpty(initial.value.amount) && r.comment == OrEmpty(initial.value.comment)
  {
    if initial.None? then Fields(None, None, None, None, "", "")
    else
      var i := initial.value;
      Fields(i.cashFlowType, i.category, i.subcategory, i.status, OrEmpty(i.amount), OrEmpty(i.comment))
  }

  /** Choosing a type sets it and clears category and subcategory. */
  function TypeChanged(fields: Fields, next: Option<ID>): (r: Fields)
    ensures r.cashFlowType == next && r.category.None? && r.subcategory.None?
    ensures r.status == fields.status && r.amount == fields.amount && r.comment == fields.comment
  {
    fields.(cashFlowType := next, category := None, subcategory := None)
  }

  /** Choosing a category sets it and clears only the subcategory. */
  function CategoryChanged(fields: Fields, next: Option<ID>): (r: Fields)
    ensures r.category == next && r.subcategory.None?
    ensures r.cashFlowType == fields.cashFlowType && r.status == fields.status
    ensures r.amount == fields.amount && r.comment == fields.comment
  {
    fields.(category := next, subcategory := None)
  }

  /** `filteredCategories`: nothing until a type is chosen, then the categories of that type. */
  function CategoryOptions(categories: seq<Category>, cashFlowType: Option<ID>): (r: seq<Category>)
    ensures cashFlowType.None? ==> r == []
    ensures cashFlowType.Some? ==> forall c :: c in r <==> c in categories && c.cashFlowType == cashFlowType.value
  {
    if cashFlowType.None? then []
    else
      FilterMembership(categories, OfType(cashFlowType.value));
      Filter(categories, OfType(cashFlowType.value))
  }

  /** `filteredSubcategories`: nothing until a category is chosen, then its subcategories. */
  function SubcategoryOptions(subcategories: seq<Subcategory>, category: Option<ID>): (r: seq<Subcategory>)
    ensures category.None? ==> r == []
    ensures category.Some? ==> forall s :: s in r <==> s in subcategories && s.category == category.value
  {
    if category.None? then []
    else
      FilterMembership(subcategories, OfCategory(category.value));
      Filter(subcategories, OfCategory(category.value))
  }

  /** `isAmountValid`: the amount converts to a finite number greater than zero. */
  predicate IsAmountValid(toNumber: NumberParser, amount: string) {
    toNumber(amount).Finite? && toNumber(amount).value > 0.0
  }

  /** The save button's `disabled` expression. */
  predicate SaveDisabled(fields: Fields, toNumber: NumberParser) {
    || fields.cashFlowType.None? || fields.category.None? || fields.subcategory.None?
    || fields.status.None? || fields.amount == "" || !IsAmountValid(toNumber, fields.amount)
  }

  /** `isEdit`: an initial record with an id. */
  predicate IsEdit(initial: Option<Initial>) {
    initial.Some? && initial.value.id.Some?
  }

  /** What the dialog hands to `onSubmit`: the id when editing, and the request body. */
  datatype FormPayload = FormPayload(id: Option<ID>, body: CashFlowPayload)

  /** `handleSubmit`: nothing when a field is missing or the amount is invalid, else the payload. */
  function SubmitPayload(fields: Fields, initial: Option<Initial>, toNumber: NumberParser): (r: Option<FormPayload>)
    ensures r.Some? <==>
              && fields.cashFlowType.Some? && fields.category.Some? && fields.subcategory.Some?
              && fields.status.Some? && fields.amount != "" && IsAmountValid(toNumber, fields.amount)
    ensures r.Some? ==>
              && r.value.id == (if IsEdit(initial) then initial.value.id else None)
              && r.value.body.status == fields.status.value
              && r.value.body.cashFlowType == fields.cashFlowType.value
              && r.value.body.category == fields.category.value
              && r.value.body.subcategory == fields.subcategory.value
              && r.value.body.amount == fields.amount
              && (r.value.body.comment.None? <==> fields.comment == "")
              && (r.value.body.comment.Some? ==> r.value.body.comment.value == fields.comment)
  {
    if || fields.cashFlowType.None? || fields.category.None? || fields.subcategory.None?
       || fields.status.None? || fields.amount == "" || !IsAmountValid(toNumber, fields.amount)
    then None
    else
      var body := CashFlowPayload(
        fields.status.value, fields.cashFlowType.value, fields.category.value, fields.subcategory.value,
        fields.amount, if fields.comment != "" then Some(fields.comment) else None);
      Some(FormPayload(if IsEdit(initial) then initial.value.id else None, body))
  }

  /** The save button is disabled exactly when `handleSubmit` would emit nothing. */
  lemma SaveDisabledMatchesSubmitGuard(fields: Fields, initial: Option<Initial>, toNumber: NumberParser)
    ensures SaveDisabled(fields, toNumber) <==> SubmitPayload(fields, initial, toNumber).None?
  {
  }

  /** Editing a row round-trips: the form opened on it (`initial={editing}`) and saved
      unchanged is saved exactly when the row's amount is valid, and then updates that row
      with its own references, amount and comment. */
  lemma EditRoundTrip(row: CashFlow, toNumber: NumberParser)
    ensures var initial := Some(InitialOf(row));
      var r := SubmitPayload(ResetFields(initial), initial, toNumber);
      && (r.Some? <==> row.amount != "" && IsAmountValid(toNumber, row.amount))
      && (r.Some? ==>
            r.value == FormPayload(Some(row.id),
              CashFlowPayload(row.status, row.cashFlowType, row.category, row.subcategory, row.amount,
                              if row.comment == "" then None else Some(row.comment))))
  {
  }

  /** A create form (no `initial`) never carries an id. */
  lemma CreateCarriesNoId(fields: Fields, toNumber: NumberParser)
    ensures var r := SubmitPayload(fields, None, toNumber);
      r.Some? ==> r.value.id.None?
  {
  }

  /** The category and subcategory fields belong to the chosen type and category. */
  predicate FormConsistent(fields: Fields, categories: seq<Category>, subcategories: seq<Subcategory>) {
    && (fields.category.Some? ==>
          fields.cashFlowType.Some? &&
          exists c :: c in categories && c.id == fields.category.value && c.cashFlowType == fields.cashFlowType.value)
    && (fields.subcategory.Some? ==>
          fields.category.Some? &&
          exists s :: s in subcategories && s.id == fields.subcategory.value && s.category == fields.category.value)
  }

  /** The cascade keeps the form consistent. Because the menus are empty until their parent is
      chosen, a choice taken from a menu needs no separate "menu enabled" assumption. */
  lemma CascadePreservesFormConsistency(fields: Fields, categories: seq<Category>, subcategories: seq<Subcategory>, next: Option<ID>)
    requires FormConsistent(fields, categories, subcategories)
    ensures FormConsistent(TypeChanged(fields, next), categories, subcategories)
    ensures (next.Some? ==> exists c :: c in CategoryOptions(categories, fields.cashFlowType) && c.id == next.value) ==>
              FormConsistent(CategoryChanged(fields, next), categories, subcategories)
    ensures (next.Some? ==> exists s :: s in SubcategoryOptions(subcategories, fields.category) && s.id == next.value) ==>
              FormConsistent(fields.(subcategory := next), categories, subcategories)
  {
    if next.Some? && exists c :: c in CategoryOptions(categories, fields.cashFlowType) && c.id == next.value {
      var c :| c in CategoryOptions(categories, fields.cashFlowType) && c.id == next.value;
      assert fields.cashFlowType.Some?;
      assert c in categories && c.cashFlowType == fields.cashFlowType.value;
    }
    if next.Some? && exists s :: s in SubcategoryOptions(subcategories, fields.category) && s.id == next.value {
      var s :| s in SubcategoryOptions(subcategories, fields.category) && s.id == next.value;
      assert fields.category.Some?;
      assert s in subcategories && s.category == fields.category.value;
    }
  }

  /** The dialog's component state. */
  class CashFlowForm {
    const toNumber: NumberParser
    var initial: Option<Initial>
    var cashFlowType: Option<ID>
    var category: Option<ID>
    var subcategory: Option<ID>
    var status: Option<ID>
    var amount: string
    var comment: string

    ghost function Contents(): Fields
      reads this
    {
      Fields(cashFlowType, category, subcategory, status, amount, comment)
    }

    /** Mounting: each `useState` starts from `initial`, or blank. */
    constructor (toNumber: NumberParser, initial: Option<Initial>)
      ensures this.toNumber == toNumber && this.initial == initial
      ensures Contents() == ResetFields(initial)
    {
      this.toNumber := toNumber;
      this.initial := initial;
      var fields := ResetFields(initial);
      cashFlowType, category, subcategory := fields.cashFlowType, fields.category, fields.subcategory;
      status, amount, comment := fields.status, fields.amount, fields.comment;
    }

    /** The reset-on-open effect: all six fields are overwritten from the new `initial`. */
    method Open(initial: Option<Initial>)
      modifies this
      ensures this.initial == initial
      ensures Contents() == ResetFields(initial)
    {
      this.initial := initial;
      cashFlowType := if initial.Some? then initial.value.cashFlowType else None;
      category := if initial.Some? then initial.value.category else None;
      subcategory := if initial.Some? then initial.value.subcategory else None;
      status := if initial.Some? then initial.value.status else None;
      amount := if initial.Some? then OrEmpty(initial.value.amount) else "";
      comment := if initial.Some? then OrEmpty(initial.value.comment) else "";
    }

    method ChangeType(next: Option<ID>)
      modifies this
      ensures initial == old(initial)
      ensures Contents() == TypeChanged(old(Contents()), next)
    {
      cashFlowType := next;
      category := None;
      subcategory := None;
    }

    method ChangeCategory(next: Option<ID>)
      modifies this
      ensures initial == old(initial)
      ensures Contents() == CategoryChanged(old(Contents()), next)
    {
      category := next;
      subcategory := None;
    }

    method ChangeSubcategory(next: Option<ID>)
      modifies this
      ensures initial == old(initial)
      ensures Contents() == old(Contents()).(subcategory := next)
    {
      subcategory := next;
    }

    method ChangeStatus(next: Option<ID>)
      modifies this
      ensures initial == old(initial)
      ensures Contents() == old(Contents()).(status := next)
    {
      status := next;
    }

    method ChangeAmount(text: string)
      modifies this
      ensures initial == old(initial)
      ensures Contents() == old(Contents()).(amount := text)
    {
      amount := text;
    }

    method ChangeComment(text: string)
      modifies this
      ensures initial == old(initial)
      ensures Contents() == old(Contents()).(comment := text)
    {
      comment := text;
    }

    /** `handleSubmit`: returns what is handed to `onSubmit`, if anything; the form is not changed. */
    method Submit() returns (emitted: Option<FormPayload>)
      ensures emitted == SubmitPayload(Contents(), initial, toNumber)
    {
      if cashFlowType.None? || category.None? || subcategory.None? || status.None? || amount == "" {
        return None;
      }
      var n := toNumber(amount);
      if !(n.Finite? && n.value > 0.0) {
        return None;
      }
      var id := if initial.Some? && initial.value.id.Some? then initial.value.id else None;
      emitted := Some(FormPayload(id, CashFlowPayload(
        status.value, cashFlowType.value, category.value, subcategory.value,
        amount, if comment != "" then Some(comment) else None)));
    }
  }
}
