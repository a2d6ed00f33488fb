/** The console's top-level component (frontend/src/App.tsx): the record filter, the displayed
    page of records with its `loading` and `error` flags, the four dictionary lists, and the
    handlers that delete or save a record and refresh what the screen shows.

    Each remote call a handler awaits is a parameter holding how that call settles. The requests
    the component issues are recorded, in order, in the ghost log `sent`. A handler runs to
    completion: the refetch it starts is settled before it returns. */
module AppComponent {
  import opened Common
  import opened Types
  import opened Api
  import FiltersBar
  import CashFlowFormDialog
  import DictionaryTableComponent
  import DictionaryDialogs

  /** The section shown: the record list or one dictionary. */
  datatype Mode = CashFlowsMode | DictionaryMode(dict: DictMode)

  /** The filter the component starts with. */
  const InitialFilters: CashFlowFilters := CashFlowFilters(None, None, None, None, None, None, Some(10), None, None)

  /** `resetFilters`: the page size is kept, every other field is dropped. */
  function ResetFilters(f: CashFlowFilters): (r: CashFlowFilters)
    ensures r.pageSize == f.pageSize
    ensures forall field :: field != PageSizeField ==> Get(r, field).IsUnset()
  {
    CashFlowFilters(None, None, None, None, None, None, f.pageSize, None, None)
  }

  /** Resetting twice is resetting once, and a reset filter asks only for the page size. */
  lemma ResetFiltersIdempotent(f: CashFlowFilters)
    ensures ResetFilters(ResetFilters(f)) == ResetFilters(f)
    ensures ResetFilters(f) == InitialFilters.(pageSize := f.pageSize)
  {
  }

  /** The page-size handler's update: the new size, `page: 1`, everything else kept. */
  function WithPageSize(f: CashFlowFilters, size: int): (r: CashFlowFilters)
    ensures r.pageSize == Some(size) && r.page == Some(1)
    ensures AgreeOutside(f, r, {PageSizeField, PageField})
  {
    f.(pageSize := Some(size), page := Some(1))
  }

  /** The initial filter requests `/cash_flows/?page_size=10`. */
  lemma InitialRequest()
    ensures CashFlowsRequest(InitialFilters).target == ApiPath("/cash_flows/?page_size=10")
  {
    var q := QueryString(ToApiFilters(InitialFilters));
    assert q == "?page_size=" + NatText(10) by {
      OnlyPageSizeIsSent(InitialFilters, 10);
    }
    assert NatText(10) == "10" by {
      assert NatText(1) == "1";
    }
    assert CashFlowsRequest(InitialFilters).target == ApiPath("/cash_flows/" + q);
  }

  /** The `page: 1` the page-size handler adds is never sent: `toApiFilters` drops it
      (every list request asks for the first page anyway). */
  lemma PageResetIsNotSent(f: CashFlowFilters, size: int)
    ensures CashFlowsRequest(WithPageSize(f, size)) == CashFlowsRequest(f.(pageSize := Some(size)))
  {
    ToApiFiltersSeesSevenFields(WithPageSize(f, size), f.(pageSize := Some(size)));
  }

  /** Per-dictionary page sizes (`dictPageSizes`). */
  datatype DictPageSizes = DictPageSizes(statuses: int, types: int, categories: int, subcategories: int)
  {
    function Of(mode: DictMode): int {
      match mode
      case Statuses => statuses
      case CashFlowTypes => types
      case Categories => categories
      case Subcategories => subcategories
    }

    /** `{ ...s, [mode]: size }`. */
    function With(mode: DictMode, size: int): (r: DictPageSizes)
      ensures r.Of(mode) == size
      ensures forall other :: other != mode ==> r.Of(other) == Of(other)
    {
      match mode
      case Statuses => this.(statuses := size)
      case CashFlowTypes => this.(types := size)
      case Categories => this.(categories := size)
      case Subcategories => this.(subcategories := size)
    }
  }

  /** Everything the component holds, as one value. */
  datatype AppState = AppState(
    statuses: seq<Status>,
    types: seq<CashFlowType>,
    categories: seq<Category>,
    subcategories: seq<Subcategory>,
    filters: CashFlowFilters,
    pageSize: int,
    dictPageSizes: DictPageSizes,
    data: Option<Paginated<CashFlow>>,
    loading: bool,
    error: Option<string>,
    formOpen: bool,
    editing: Option<CashFlow>,
    confirmOpen: bool,
    toDelete: Option<CashFlow>,
    mode: Mode,
    sent: seq<Request>)

  const InitialState: AppState := AppState(
    [], [], [], [], InitialFilters, 10, DictPageSizes(10, 10, 10, 10),
    None, true, None, false, None, false, None, CashFlowsMode, [])

  // ---------------------------------------------------------------------------------------
  // `fetchData` and the dictionary load, as transitions of the state

  /** The first half of `fetchData`: raise `loading`, clear `error`, request the first page. */
  function FetchStarted(s: AppState): AppState {
    s.(loading := true, error := None, sent := s.sent + [CashFlowsRequest(s.filters)])
  }

  /** The second half: store the page or the message, and lower `loading` either way. */
  function FetchSettled(s: AppState, response: Remote<Paginated<CashFlow>>): AppState {
    match response
    case Ok(page) => s.(data := Some(page), loading := false)
    case Failed(m) => s.(error := Some(m), loading := false)
  }

  /** `fetchData`: nothing at all outside the record list. */
  function Fetched(s: AppState, response: Remote<Paginated<CashFlow>>): AppState {
    if s.mode != CashFlowsMode then s else FetchSettled(FetchStarted(s), response)
  }

  lemma FetchedOutcome(s: AppState, response: Remote<Paginated<CashFlow>>)
    ensures s.mode != CashFlowsMode ==> Fetched(s, response) == s
    ensures s.mode == CashFlowsMode ==>
              var r := Fetched(s, response);
              && FetchStarted(s).loading && FetchStarted(s).error.None?
              && !r.loading
              && r.sent == s.sent + [CashFlowsRequest(s.filters)]
              && r.data == (if response.Ok? then Some(response.value) else s.data)
              && r.error == (if response.Ok? then None else Some(response.message))
              && r.(data := s.data, error := s.error, loading := s.loading, sent := s.sent) == s
  {
  }

  function DropdownRequests(): seq<Request> {
    [DropdownRequest(Statuses), DropdownRequest(CashFlowTypes), DropdownRequest(Categories), DropdownRequest(Subcategories)]
  }

  /** The dictionary load (`Promise.all` of the four dropdown sources): all four requests go out,
      and the lists are replaced only if every one of them succeeds. */
  function DictionariesLoaded(
    s: AppState,
    st: Remote<Paginated<Status>>, tp: Remote<Paginated<CashFlowType>>,
    cat: Remote<Paginated<Category>>, sub: Remote<Paginated<Subcategory>>): AppState
  {
    var s1 := s.(sent := s.sent + DropdownRequests());
    var (a, b, c, d) := (Results(st), Results(tp), Results(cat), Results(sub));
    if a.Ok? && b.Ok? && c.Ok? && d.Ok? then
      s1.(statuses := a.value, types := b.value, categories := c.value, subcategories := d.value)
    else s1
  }

  /** All or nothing: either all four lists become the fetched ones, or none changes. */
  lemma DictionaryLoadIsAllOrNothing(
    s: AppState,
    st: Remote<Paginated<Status>>, tp: Remote<Paginated<CashFlowType>>,
    cat: Remote<Paginated<Category>>, sub: Remote<Paginated<Subcategory>>)
    ensures
      var r := DictionariesLoaded(s, st, tp, cat, sub);
      && r.sent == s.sent + DropdownRequests()
      && (st.Ok? && tp.Ok? && cat.Ok? && sub.Ok? ==>
            && r.statuses == st.value.results && r.types == tp.value.results
            && r.categories == cat.value.results && r.subcategories == sub.value.results)
      && (!(st.Ok? && tp.Ok? && cat.Ok? && sub.Ok?) ==>
            r.statuses == s.statuses && r.types == s.types
            && r.categories == s.categories && r.subcategories == s.subcategories)
      && r.(statuses := s.statuses, types := s.types, categories := s.categories,
            subcategories := s.subcategories, sent := s.sent) == s
  {
  }

  /** Mounting: the initial `useState` values, then the two mount effects in their
      declaration order, the record fetch and the one-time dictionary load. */
  function Mounted(
    fetched: Remote<Paginated<CashFlow>>,
    st: Remote<Paginated<Status>>, tp: Remote<Paginated<CashFlowType>>,
    cat: Remote<Paginated<Category>>, sub: Remote<Paginated<Subcategory>>): AppState
  {
    DictionariesLoaded(Fetched(InitialState, fetched), st, tp, cat, sub)
  }

  /** After mounting, the first page of records at `page_size` 10 and the four dropdown lists
      have been requested in that order; `loading` is down, the page or the message is shown,
      the lists are all filled or all still empty, and no dialog is open. */
  lemma MountLoadsFirstPageAndDictionaries(
    fetched: Remote<Paginated<CashFlow>>,
    st: Remote<Paginated<Status>>, tp: Remote<Paginated<CashFlowType>>,
    cat: Remote<Paginated<Category>>, sub: Remote<Paginated<Subcategory>>)
    ensures
      var r := Mounted(fetched, st, tp, cat, sub);
      && r.sent == [CashFlowsRequest(InitialFilters)] + DropdownRequests()
      && r.sent[0].target == ApiPath("/cash_flows/?page_size=10")
      && !r.loading
      && r.data == (if fetched.Ok? then Some(fetched.value) else None)
      && r.error == (if fetched.Ok? then None else Some(fetched.message))
      && (st.Ok? && tp.Ok? && cat.Ok? && sub.Ok? ==>
            && r.statuses == st.value.results && r.types == tp.value.results
            && r.categories == cat.value.results && r.subcategories == sub.value.results)
      && (!(st.Ok? && tp.Ok? && cat.Ok? && sub.Ok?) ==>
            r.statuses == [] && r.types == [] && r.categories == [] && r.subcategories == [])
      && r.filters == InitialFilters && r.mode == CashFlowsMode
      && !r.formOpen && !r.confirmOpen && r.editing.None? && r.toDelete.None?
  {
    var f := Fetched(InitialState, fetched);
    FetchedOutcome(InitialState, fetched);
    DictionaryLoadIsAllOrNothing(f, st, tp, cat, sub);
    InitialRequest();
  }

  /** `onDictionariesChanged`: reload the dictionaries, then the records when they are shown. */
  function DictionariesChanged(
    s: AppState,
    st: Remote<Paginated<Status>>, tp: Remote<Paginated<CashFlowType>>,
    cat: Remote<Paginated<Category>>, sub: Remote<Paginated<Subcategory>>,
    records: Remote<Paginated<CashFlow>>): AppState
  {
    var s1 := DictionariesLoaded(s, st, tp, cat, sub);
    if s1.mode == CashFlowsMode then Fetched(s1, records) else s1
  }

  /** The refresh plan after a dictionary change: the four dropdown requests always, then the
      record list's first page exactly when the record list is shown. */
  lemma DictionaryChangeRefreshPlan(
    s: AppState,
    st: Remote<Paginated<Status>>, tp: Remote<Paginated<CashFlowType>>,
    cat: Remote<Paginated<Category>>, sub: Remote<Paginated<Subcategory>>,
    records: Remote<Paginated<CashFlow>>)
    ensures
      DictionariesChanged(s, st, tp, cat, sub, records).sent ==
        s.sent + DropdownRequests() + (if s.mode == CashFlowsMode then [CashFlowsRequest(s.filters)] else [])
  {
  }

  /** After any record mutation the list refetch is the first page of the current filter, not
      the page on display: a followed `next` link is forgotten. */
  lemma RefetchReturnsToFirstPage(s: AppState, link: string, page: Paginated<CashFlow>, refetched: Remote<Paginated<CashFlow>>)
    requires s.mode == CashFlowsMode
    ensures
      var shown := s.(data := Some(page), sent := s.sent + [ByUrlRequest(link)]);
      var r := Fetched(shown, refetched);
      r.sent[|r.sent| - 1] == CashFlowsRequest(s.filters) && r.sent[|r.sent| - 1] != ByUrlRequest(link)
  {
  }

  /** Once a type is chosen, the record form offers the same categories as the filter bar;
      with no type the bar offers all of them and the form none. */
  lemma FormAndBarCategoryMenus(categories: seq<Category>, f: CashFlowFilters)
    ensures f.cashFlowType.Some? ==>
              CashFlowFormDialog.CategoryOptions(categories, f.cashFlowType) == FiltersBar.CategoryOptions(categories, f)
    ensures f.cashFlowType.None? ==>
              CashFlowFormDialog.CategoryOptions(categories, f.cashFlowType) == [] &&
              FiltersBar.CategoryOptions(categories, f) == categories
  {
  }

  // ---------------------------------------------------------------------------------------
  // Saving a record, and what the children are given

  /** The form's `initial` prop: the row being edited, if any. */
  function FormInitial(s: AppState): Option<CashFlowFormDialog.Initial> {
    if s.editing.Some? then Some(CashFlowFormDialog.InitialOf(s.editing.value)) else None
  }

  /** The request `handleSubmit` sends for a payload: an update of the id it carries, else a create. */
  function SubmitRequest(payload: CashFlowFormDialog.FormPayload): Request {
    if payload.id.Some? then UpdateRequest(CashFlows, payload.id.value, CashFlowBody(payload.body))
    else CreateRequest(CashFlows, CashFlowBody(payload.body))
  }

  /** `handleSubmit` run to completion: on success close the form, forget the edited row and
      refetch; on failure only record the message. */
  function Submitted(s: AppState, payload: CashFlowFormDialog.FormPayload, saved: Remote<CashFlow>,
                     refetched: Remote<Paginated<CashFlow>>): AppState
  {
    var s1 := s.(sent := s.sent + [SubmitRequest(payload)]);
    if saved.Ok? then Fetched(s1.(formOpen := false, editing := None), refetched)
    else s1.(error := Some(saved.message))
  }

  /** Whatever the operator changes in a form opened on a row, saving it updates that row;
      in a form opened by "Add" it creates a record. The form is closed afterwards only when
      the server accepted the write. */
  lemma SaveTargetsTheEditedRow(s: AppState, fields: CashFlowFormDialog.Fields, toNumber: CashFlowFormDialog.NumberParser,
                                saved: Remote<CashFlow>, refetched: Remote<Paginated<CashFlow>>)
    requires CashFlowFormDialog.SubmitPayload(fields, FormInitial(s), toNumber).Some?
    ensures
      var p := CashFlowFormDialog.SubmitPayload(fields, FormInitial(s), toNumber).value;
      var r := Submitted(s, p, saved, refetched);
      && r.sent[|s.sent|] == (if s.editing.Some? then UpdateRequest(CashFlows, s.editing.value.id, CashFlowBody(p.body))
                              else CreateRequest(CashFlows, CashFlowBody(p.body)))
      && r.formOpen == (s.formOpen && saved.Failed?)
  {
  }

  /** Opening the form on a row and saving it unchanged sends that very row back as an update. */
  lemma EditUnchangedResendsTheRow(s: AppState, row: CashFlow, toNumber: CashFlowFormDialog.NumberParser,
                                   saved: Remote<CashFlow>, refetched: Remote<Paginated<CashFlow>>)
    requires row.amount != "" && CashFlowFormDialog.IsAmountValid(toNumber, row.amount)
    ensures
      var shown := s.(editing := Some(row), formOpen := true);
      var p := CashFlowFormDialog.SubmitPayload(CashFlowFormDialog.ResetFields(FormInitial(shown)), FormInitial(shown), toNumber);
      && p.Some?
      && SubmitRequest(p.value) ==
           UpdateRequest(CashFlows, row.id, CashFlowBody(CashFlowPayload(row.status, row.cashFlowType, row.category,
             row.subcategory, row.amount, if row.comment == "" then None else Some(row.comment))))
  {
    CashFlowFormDialog.EditRoundTrip(row, toNumber);
  }

  /** The dictionary table's props (`mode`, `types`, `categories`, `pageSize={dictPageSizes[mode]}`). */
  function TablePropsOf(s: AppState): DictionaryTableComponent.TableProps
    requires s.mode.DictionaryMode?
  {
    DictionaryTableComponent.TableProps(s.mode.dict, s.types, s.categories, s.dictPageSizes.Of(s.mode.dict))
  }

  /** The table's `onPageSizeChange`: the shown dictionary's size changes. */
  function DictPageSizeChanged(s: AppState, size: int): AppState {
    if s.mode.DictionaryMode? then s.(dictPageSizes := s.dictPageSizes.With(s.mode.dict, size)) else s
  }

  /** A page size chosen in the table comes back to it as its `pageSize` prop, so the next
      reload after a write or a delete asks for pages of that size. */
  lemma TableSizeReachesLaterReloads(s: AppState, t: DictionaryTableComponent.TableState, size: int,
                                     listed: Remote<Paginated<DictionaryTableComponent.DictEntry>>,
                                     relisted: Remote<Paginated<DictionaryTableComponent.DictEntry>>)
    requires s.mode.DictionaryMode? && t.props == TablePropsOf(s)
    ensures
      var t1 := DictionaryTableComponent.PageSizeChosen(t, size, listed);
      var s1 := DictPageSizeChanged(s, size);
      var t2 := DictionaryTableComponent.PropsReceived(t1, TablePropsOf(s1));
      && TablePropsOf(s1).pageSize == size
      && TablePropsOf(s1).mode == t.props.mode
      && DictionaryTableComponent.Reloaded(t2, relisted).effects ==
           t1.effects + [DictionaryTableComponent.Sent(DictionaryTableComponent.FirstPage(t.props.mode, size)),
                         DictionaryTableComponent.Changed]
  {
    var t1 := DictionaryTableComponent.PageSizeChosen(t, size, listed);
    var t2 := DictionaryTableComponent.PropsReceived(t1, TablePropsOf(DictPageSizeChanged(s, size)));
    DictionaryTableComponent.ReloadIsFirstPageThenNotice(t2, relisted);
  }

  /** After the table reports a change, the reloaded dictionaries reach it: a new category
      created next starts under the first of the freshly loaded types. */
  lemma ReloadedTypesReachTheTable(s: AppState, t: DictionaryTableComponent.TableState,
                                   st: Remote<Paginated<Status>>, tp: Remote<Paginated<CashFlowType>>,
                                   cat: Remote<Paginated<Category>>, sub: Remote<Paginated<Subcategory>>,
                                   records: Remote<Paginated<CashFlow>>)
    requires s.mode == DictionaryMode(Categories)
    requires st.Ok? && tp.Ok? && cat.Ok? && sub.Ok?
    ensures
      var s1 := DictionariesChanged(s, st, tp, cat, sub, records);
      var t1 := DictionaryTableComponent.CreateOpened(DictionaryTableComponent.PropsReceived(t, TablePropsOf(s1)));
      t1.editor.categoryInitial ==
        Some(DictionaryDialogs.CategoryInitial("", DictionaryTableComponent.FirstType(tp.value.results)))
  {
    var s1 := DictionariesChanged(s, st, tp, cat, sub, records);
    DictionaryTableComponent.CreateSeedsFirstParent(DictionaryTableComponent.PropsReceived(t, TablePropsOf(s1)));
  }

  // ---------------------------------------------------------------------------------------
  // The component

  class App {
    var statuses: seq<Status>
    var types: seq<CashFlowType>
    var categories: seq<Category>
    var subcategories: seq<Subcategory>
    var filters: CashFlowFilters
    var pageSize: int
    var dictPageSizes: DictPageSizes
    var data: Option<Paginated<CashFlow>>
    var loading: bool
    var error: Option<string>
    var formOpen: bool
    var editing: Option<CashFlow>
    var confirmOpen: bool
    var toDelete: Option<CashFlow>
    var mode: Mode
    ghost var sent: seq<Request>

    ghost function State(): AppState
      reads this
    {
      AppState(statuses, types, categories, subcategories, filters, pageSize, dictPageSizes,
               data, loading, error, formOpen, editing, confirmOpen, toDelete, mode, sent)
    }

    /** The page-size menu and the filter's `page_size` show the same number. */
    ghost predicate Valid()
      reads this
    {
      filters.pageSize == Some(pageSize)
    }

    /** Mounting, with the outcomes of the record fetch and of the four dictionary requests. */
    constructor (
      fetched: Remote<Paginated<CashFlow>>,
      st: Remote<Paginated<Status>>, tp: Remote<Paginated<CashFlowType>>,
      cat: Remote<Paginated<Category>>, sub: Remote<Paginated<Subcategory>>)
      ensures State() == Mounted(fetched, st, tp, cat, sub) && Valid()
    {
      statuses, types, categories, subcategories := [], [], [], [];
      filters, pageSize, dictPageSizes := InitialFilters, 10, DictPageSizes(10, 10, 10, 10);
      data, loading, error := None, true, None;
      formOpen, editing, confirmOpen, toDelete := false, None, false, None;
      mode := CashFlowsMode;
      sent := [];
      new;
      FetchData(fetched);
      LoadDictionaries(st, tp, cat, sub);
    }

    method BeginFetch()
      requires mode == CashFlowsMode
      modifies this
      ensures State() == FetchStarted(old(State()))
    {
      loading := true;
      error := None;
      sent := sent + [CashFlowsRequest(filters)];
    }

    method CompleteFetch(response: Remote<Paginated<CashFlow>>)
      modifies this
      ensures State() == FetchSettled(old(State()), response)
    {
      match response {
        case Ok(page) => data := Some(page);
        case Failed(m) => error := Some(m);
      }
      loading := false;
    }

    method FetchData(response: Remote<Paginated<CashFlow>>)
      modifies this
      ensures State() == Fetched(old(State()), response)
    {
      if mode != CashFlowsMode {
        return;
      }
      BeginFetch();
      CompleteFetch(response);
    }

    /** `refreshDictionaries`, and the same load run once on mount. */
    method LoadDictionaries(
      st: Remote<Paginated<Status>>, tp: Remote<Paginated<CashFlowType>>,
      cat: Remote<Paginated<Category>>, sub: Remote<Paginated<Subcategory>>)
      modifies this
      ensures State() == DictionariesLoaded(old(State()), st, tp, cat, sub)
    {
      sent := sent + DropdownRequests();
      var a := Results(st);
      var b := Results(tp);
      var c := Results(cat);
      var d := Results(sub);
      if a.Ok? && b.Ok? && c.Ok? && d.Ok? {
        statuses := a.value;
        types := b.value;
        categories := c.value;
        subcategories := d.value;
      }
    }

    method OnDictionariesChanged(
      st: Remote<Paginated<Status>>, tp: Remote<Paginated<CashFlowType>>,
      cat: Remote<Paginated<Category>>, sub: Remote<Paginated<Subcategory>>,
      records: Remote<Paginated<CashFlow>>)
      modifies this
      ensures State() == DictionariesChanged(old(State()), st, tp, cat, sub, records)
    {
      LoadDictionaries(st, tp, cat, sub);
      if mode == CashFlowsMode {
        FetchData(records);
      }
    }

    /** The row's delete button: remember the row and open the confirmation. */
    method AskDelete(row: CashFlow)
      modifies this
      ensures State() == old(State()).(toDelete := Some(row), confirmOpen := true)
    {
      toDelete := Some(row);
      confirmOpen := true;
    }

    method CloseConfirm()
      modifies this
      ensures State() == old(State()).(confirmOpen := false)
    {
      confirmOpen := false;
    }

    /** `handleDelete`: a no-op without a pending row; on success close the confirmation,
        forget the row and refetch; on failure only record the message. */
    method HandleDelete(deleted: Remote<()>, refetched: Remote<Paginated<CashFlow>>)
      modifies this
      ensures old(toDelete).None? ==> State() == old(State())
      ensures old(toDelete).Some? ==>
                var s1 := old(State()).(sent := old(sent) + [DeleteRequest(CashFlows, old(toDelete).value.id)]);
                State() == (if deleted.Ok? then Fetched(s1.(confirmOpen := false, toDelete := None), refetched)
                            else s1.(error := Some(deleted.message)))
    {
      if toDelete.None? {
        return;
      }
      sent := sent + [DeleteRequest(CashFlows, toDelete.value.id)];
      match deleted {
        case Ok(_) =>
          confirmOpen := false;
          toDelete := None;
          FetchData(refetched);
        case Failed(m) =>
          error := Some(m);
      }
    }

    /** "Add": an empty form. */
    method OpenCreate()
      modifies this
      ensures State() == old(State()).(editing := None, formOpen := true)
    {
      editing := None;
      formOpen := true;
    }

    /** The row's edit button: the form opens on that row. */
    method OpenEdit(row: CashFlow)
      modifies this
      ensures State() == old(State()).(editing := Some(row), formOpen := true)
    {
      editing := Some(row);
      formOpen := true;
    }

    method CloseForm()
      modifies this
      ensures State() == old(State()).(formOpen := false, editing := None)
    {
      formOpen := false;
      editing := None;
    }

    /** `handleSubmit`: with an id, update that record with the id left out of the body;
        without one, create; on success close the form, forget the edited row and refetch. */
    method HandleSubmit(payload: CashFlowFormDialog.FormPayload, saved: Remote<CashFlow>, refetched: Remote<Paginated<CashFlow>>)
      modifies this
      ensures State() == Submitted(old(State()), payload, saved, refetched)
    {
      if payload.id.Some? {
        sent := sent + [UpdateRequest(CashFlows, payload.id.value, CashFlowBody(payload.body))];
      } else {
        sent := sent + [CreateRequest(CashFlows, CashFlowBody(payload.body))];
      }
      match saved {
        case Ok(_) =>
          formOpen := false;
          editing := None;
          FetchData(refetched);
        case Failed(m) =>
          error := Some(m);
      }
    }

    /** The filter bar's `onChange`: the filter becomes the one the bar built. */
    method ChangeFilters(e: FiltersBar.FilterEvent)
      requires Valid()
      modifies this
      ensures Valid()
      ensures State() == old(State()).(filters := FiltersBar.OnChange(old(filters), e))
    {
      FiltersBar.OnChangeKeepsPageSize(filters, e);
      filters := FiltersBar.OnChange(filters, e);
    }

    /** The bar's reset button. */
    method ResetFilter()
      requires Valid()
      modifies this
      ensures Valid()
      ensures State() == old(State()).(filters := ResetFilters(old(filters)))
    {
      filters := ResetFilters(filters);
    }

    /** The page-size menu: both the menu value and the filter take the new size. */
    method ChangePageSize(size: int)
      modifies this
      ensures Valid()
      ensures State() == old(State()).(pageSize := size, filters := WithPageSize(old(filters), size))
    {
      pageSize := size;
      filters := WithPageSize(filters, size);
    }

    /** "Previous": follow the link only when there is one; on failure nothing changes
        (the source attaches no error handler here). */
    method GoPrevious(response: Remote<Paginated<CashFlow>>)
      modifies this
      ensures !(old(data).Some? && IsLink(old(data).value.previous)) ==> State() == old(State())
      ensures old(data).Some? && IsLink(old(data).value.previous) ==>
                State() == old(State()).(
                  sent := old(sent) + [ByUrlRequest(old(data).value.previous.value)],
                  data := if response.Ok? then Some(response.value) else old(data))
    {
      if data.Some? && IsLink(data.value.previous) {
        sent := sent + [ByUrlRequest(data.value.previous.value)];
        if response.Ok? {
          data := Some(response.value);
        }
      }
    }

    /** "Next": the same with the `next` link. */
    method GoNext(response: Remote<Paginated<CashFlow>>)
      modifies this
      ensures !(old(data).Some? && IsLink(old(data).value.next)) ==> State() == old(State())
      ensures old(data).Some? && IsLink(old(data).value.next) ==>
                State() == old(State()).(
                  sent := old(sent) + [ByUrlRequest(old(data).value.next.value)],
                  data := if response.Ok? then Some(response.value) else old(data))
    {
      if data.Some? && IsLink(data.value.next) {
        sent := sent + [ByUrlRequest(data.value.next.value)];
        if response.Ok? {
          data := Some(response.value);
        }
      }
    }

    /** A section button. */
    method SetMode(m: Mode)
      modifies this
      ensures State() == old(State()).(mode := m)
    {
      mode := m;
    }

    /** The dictionary table's `onPageSizeChange`: only the shown dictionary's size changes. */
    method ChangeDictPageSize(size: int)
      modifies this
      ensures State() == DictPageSizeChanged(old(State()), size)
    {
      if mode.DictionaryMode? {
        dictPageSizes := dictPageSizes.With(mode.dict, size);
      }
    }
  }
}
