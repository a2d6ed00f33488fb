/** The dictionary section (frontend/src/components/DictionaryTable.tsx): one paged list of
    statuses, types, categories or subcategories, its delete confirmation, and the dialogs that
    create or edit an entry. `mode`, `types`, `categories` and `pageSize` are props from the
    parent; everything else is the component's own state.

    The requests the table issues and the two callbacks it makes into its parent are recorded,
    in order, in the ghost log `effects`. Each remote call is a parameter holding how it settles. */
module DictionaryTableComponent {
  import opened Common
  import opened Types
  import opened Api
  import DictionaryDialogs

  /** A row of the list. The source types rows as `any`: a row fetched before a mode switch
      can still be on screen in the new mode, so the parent ids are read off whatever row it is. */
  datatype DictEntry =
    | StatusEntry(status: Status)
    | TypeEntry(cashFlowType: CashFlowType)
    | CategoryEntry(category: Category)
    | SubcategoryEntry(subcategory: Subcategory)
  {
    function Id(): ID {
      match this
      case StatusEntry(s) => s.id
      case TypeEntry(t) => t.id
      case CategoryEntry(c) => c.id
      case SubcategoryEntry(s) => s.id
    }

    function Name(): string {
      match this
      case StatusEntry(s) => s.name
      case TypeEntry(t) => t.name
      case CategoryEntry(c) => c.name
      case SubcategoryEntry(s) => s.name
    }

    /** `row.cash_flow_type`: defined only on a category row. */
    function TypeParent(): Option<ID> {
      if CategoryEntry? then Some(category.cashFlowType) else None
    }

    /** `row.category`: defined only on a subcategory row. */
    function CategoryParent(): Option<ID> {
      if SubcategoryEntry? then Some(subcategory.category) else None
    }
  }

  /** `toDelete`: the id to delete and the label the confirmation shows. */
  datatype DeleteTarget = DeleteTarget(id: ID, caption: string)

  /** What the table does to the outside world: a request, `onChanged()`, `onPageSizeChange(size)`. */
  datatype Effect = Sent(request: Request) | Changed | PageSizeChanged(size: int)

  /** The parent's props. */
  datatype TableProps = TableProps(mode: DictMode, types: seq<CashFlowType>, categories: seq<Category>, pageSize: int)

  /** The list on screen: the last page received, the spinner and the error banner. */
  datatype ListView = ListView(data: Option<Paginated<DictEntry>>, loading: bool, error: Option<string>)

  /** The delete confirmation. */
  datatype Confirm = Confirm(open: bool, toDelete: Option<DeleteTarget>)

  /** The entry being edited and the three dialogs' open flags and initial values. */
  datatype Editor = Editor(
    editingId: Option<ID>,
    openNameDlg: bool,
    nameInitial: string,
    openCategoryDlg: bool,
    categoryInitial: Option<DictionaryDialogs.CategoryInitial>,
    openSubcategoryDlg: bool,
    subcategoryInitial: Option<DictionaryDialogs.SubcategoryInitial>)

  datatype TableState = TableState(props: TableProps, view: ListView, confirm: Confirm, editor: Editor, effects: seq<Effect>)

  /** The collection of a mode. */
  function Coll(mode: DictMode): Collection {
    Dictionary(mode)
  }

  /** Statuses and types are edited by the name-only dialog. */
  predicate HasNameDialog(mode: DictMode) {
    mode == Statuses || mode == CashFlowTypes
  }

  /** The three dialogs' `open` props: a dialog shows only in its own mode. */
  predicate NameDialogShown(s: TableState) {
    s.editor.openNameDlg && HasNameDialog(s.props.mode)
  }

  predicate CategoryDialogShown(s: TableState) {
    s.editor.openCategoryDlg && s.props.mode == Categories
  }

  predicate SubcategoryDialogShown(s: TableState) {
    s.editor.openSubcategoryDlg && s.props.mode == Subcategories
  }

  /** The first page of the mode's collection at a given size. */
  function FirstPage(mode: DictMode, size: int): Request {
    ListRequest(mode, [("page_size", Number(size))])
  }

  // ---------------------------------------------------------------------------------------
  // `list(url?, customPageSize?)`

  /** The request `list` issues: the link when it is truthy, else the first page of the
      mode's collection with the explicit size if one is given, the prop's otherwise. */
  function ListFor(p: TableProps, url: Option<string>, customSize: Option<int>): Request {
    if IsLink(url) then ByUrlRequest(url.value)
    else FirstPage(p.mode, if customSize.Some? then customSize.value else p.pageSize)
  }

  lemma ListForChoosesSource(p: TableProps, url: Option<string>, customSize: Option<int>)
    ensures IsLink(url) ==> ListFor(p, url, customSize) == Request(GET, AbsoluteUrl(url.value), NoBody)
    ensures !IsLink(url) ==>
              var size := if customSize.Some? then customSize.value else p.pageSize;
              ListFor(p, url, customSize) ==
                Request(GET, ApiPath(CollectionPath(Coll(p.mode)) + "?page_size=" + ValueText(Number(size))), NoBody)
  {
    if !IsLink(url) {
      var size := if customSize.Some? then customSize.value else p.pageSize;
      var params: Params := [("page_size", Number(size))];
      var text := ValueText(Number(size));
      assert Appended(params) == [("page_size", text)];
      assert Encoded([("page_size", text)]) == "page_size=" + text;
      assert QueryString(params) == "?page_size=" + text;
      var path := CollectionPath(Coll(p.mode));
      assert path + QueryString(params) == path + "?page_size=" + text;
      assert ListFor(p, url, customSize) == ListRequest(p.mode, params);
    }
  }

  /** The first half of `list`: spinner on, error cleared, the request sent. */
  function ListStarted(s: TableState, url: Option<string>, customSize: Option<int>): TableState {
    s.(view := s.view.(loading := true, error := None), effects := s.effects + [Sent(ListFor(s.props, url, customSize))])
  }

  /** The second half: the page or the message is stored, and the spinner stops either way. */
  function ListSettled(s: TableState, response: Remote<Paginated<DictEntry>>): TableState {
    match response
    case Ok(page) => s.(view := s.view.(data := Some(page), loading := false))
    case Failed(m) => s.(view := s.view.(error := Some(m), loading := false))
  }

  /** `list` run to completion. */
  function Listed(s: TableState, url: Option<string>, customSize: Option<int>, response: Remote<Paginated<DictEntry>>): TableState {
    ListSettled(ListStarted(s, url, customSize), response)
  }

  /** A failed fetch keeps the rows on screen and shows the message; either way the spinner stops. */
  lemma ListedOutcome(s: TableState, url: Option<string>, customSize: Option<int>, response: Remote<Paginated<DictEntry>>)
    ensures
      var r := Listed(s, url, customSize, response);
      && ListStarted(s, url, customSize).view.loading && ListStarted(s, url, customSize).view.error.None?
      && r.effects == s.effects + [Sent(ListFor(s.props, url, customSize))]
      && !r.view.loading
      && (response.Ok? ==> r.view.data == Some(response.value) && r.view.error.None?)
      && (response.Failed? ==> r.view.data == s.view.data && r.view.error == Some(response.message))
      && r.props == s.props && r.confirm == s.confirm && r.editor == s.editor
  {
  }

  /** `list(); onChanged()` after a successful write. */
  function Reloaded(s: TableState, listed: Remote<Paginated<DictEntry>>): TableState {
    var r := Listed(s, None, None, listed);
    r.(effects := r.effects + [Changed])
  }

  /** The reload asks for the first page at the prop's size, and only then is the parent told. */
  lemma ReloadIsFirstPageThenNotice(s: TableState, listed: Remote<Paginated<DictEntry>>)
    ensures Reloaded(s, listed).effects == s.effects + [Sent(FirstPage(s.props.mode, s.props.pageSize)), Changed]
  {
  }

  // ---------------------------------------------------------------------------------------
  // Handlers as transitions

  function Initial(p: TableProps): TableState {
    TableState(p, ListView(None, false, None), Confirm(false, None),
               Editor(None, false, "", false, None, false, None), [])
  }

  /** `types[0]?.id`, `categories[0]?.id`. */
  function FirstType(types: seq<CashFlowType>): Option<ID> {
    if types == [] then None else Some(types[0].id)
  }

  function FirstCategory(categories: seq<Category>): Option<ID> {
    if categories == [] then None else Some(categories[0].id)
  }

  /** Open the mode's dialog on an id (or none), a name, and the parent the dialog starts with. */
  function Opened(e: Editor, mode: DictMode, id: Option<ID>, name: string, parent: Option<ID>): Editor {
    if HasNameDialog(mode) then e.(editingId := id, nameInitial := name, openNameDlg := true)
    else if mode == Categories then
      e.(editingId := id, categoryInitial := Some(DictionaryDialogs.CategoryInitial(name, parent)), openCategoryDlg := true)
    else
      e.(editingId := id, subcategoryInitial := Some(DictionaryDialogs.SubcategoryInitial(name, parent)), openSubcategoryDlg := true)
  }

  /** `openCreate`: no entry is being edited; the mode's dialog opens blank, a new category
      seeded with the first type and a new subcategory with the first category. */
  function CreateOpened(s: TableState): TableState {
    var parent := if s.props.mode == Categories then FirstType(s.props.types) else FirstCategory(s.props.categories);
    s.(editor := Opened(s.editor, s.props.mode, None, "", parent))
  }

  /** `openEdit(row)`: the row's id is being edited and the mode's dialog opens on the row. */
  function EditOpened(s: TableState, row: DictEntry): TableState {
    var parent := if s.props.mode == Categories then row.TypeParent() else row.CategoryParent();
    s.(editor := Opened(s.editor, s.props.mode, Some(row.Id()), row.Name(), parent))
  }

  /** Opening shows exactly the dialog of the current mode, seeded with the given values; the
      other dialogs and everything outside the editor stay as they were. */
  lemma OpenedShowsTheModesDialog(e: Editor, mode: DictMode, id: Option<ID>, name: string, parent: Option<ID>)
    ensures var r := Opened(e, mode, id, name, parent);
      && r.editingId == id
      && (HasNameDialog(mode) ==>
            r == e.(editingId := id, openNameDlg := true, nameInitial := name))
      && (mode == Categories ==>
            r == e.(editingId := id, openCategoryDlg := true, categoryInitial := Some(DictionaryDialogs.CategoryInitial(name, parent))))
      && (mode == Subcategories ==>
            r == e.(editingId := id, openSubcategoryDlg := true, subcategoryInitial := Some(DictionaryDialogs.SubcategoryInitial(name, parent))))
  {
  }

  /** A new category starts under the first type, and with no types under none (so its dialog
      cannot save until one is chosen); a new subcategory starts under the first category. */
  lemma CreateSeedsFirstParent(s: TableState)
    ensures CreateOpened(s).editor.editingId.None?
    ensures s.props.mode == Categories ==>
              && CategoryDialogShown(CreateOpened(s))
              && CreateOpened(s).editor.categoryInitial == Some(DictionaryDialogs.CategoryInitial("", FirstType(s.props.types)))
              && (s.props.types == [] ==> CreateOpened(s).editor.categoryInitial.value.cashFlowType.None?)
    ensures s.props.mode == Subcategories ==>
              && SubcategoryDialogShown(CreateOpened(s))
              && CreateOpened(s).editor.subcategoryInitial == Some(DictionaryDialogs.SubcategoryInitial("", FirstCategory(s.props.categories)))
    ensures HasNameDialog(s.props.mode) ==> NameDialogShown(CreateOpened(s)) && CreateOpened(s).editor.nameInitial == ""
  {
  }

  /** Editing a row carries its id and name into the mode's dialog, and its parent id when the
      row is of the mode's own kind. */
  lemma EditSeedsTheRow(s: TableState, row: DictEntry)
    ensures EditOpened(s, row).editor.editingId == Some(row.Id())
    ensures s.props.mode == Categories && row.CategoryEntry? ==>
              EditOpened(s, row).editor.categoryInitial == Some(DictionaryDialogs.CategoryInitial(row.category.name, Some(row.category.cashFlowType)))
    ensures s.props.mode == Subcategories && row.SubcategoryEntry? ==>
              EditOpened(s, row).editor.subcategoryInitial == Some(DictionaryDialogs.SubcategoryInitial(row.subcategory.name, Some(row.subcategory.category)))
    ensures s.props.mode == Categories && !row.CategoryEntry? ==>
              EditOpened(s, row).editor.categoryInitial.value.cashFlowType.None?
  {
  }

  /** The three dialogs. */
  datatype DialogKind = NameDialog | CategoryDialog | SubcategoryDialog

  /** A dialog's `onClose`, and the close after a save: that dialog shuts and no entry is being edited. */
  function Closed(e: Editor, k: DialogKind): Editor {
    match k
    case NameDialog => e.(openNameDlg := false, editingId := None)
    case CategoryDialog => e.(openCategoryDlg := false, editingId := None)
    case SubcategoryDialog => e.(openSubcategoryDlg := false, editingId := None)
  }

  /** `handleDelete`: a no-op without a target; otherwise the mode's delete is sent. If it is
      rejected the handler stops there (there is no catch: the confirmation stays open); else
      the confirmation closes, the target is forgotten, the list reloads and the parent is told. */
  function Deleted(s: TableState, deleted: Remote<()>, listed: Remote<Paginated<DictEntry>>): TableState {
    if s.confirm.toDelete.None? then s
    else
      var s1 := s.(effects := s.effects + [Sent(DeleteRequest(Coll(s.props.mode), s.confirm.toDelete.value.id))]);
      if deleted.Failed? then s1
      else Reloaded(s1.(confirm := Confirm(false, None)), listed)
  }

  lemma DeleteOutcome(s: TableState, deleted: Remote<()>, listed: Remote<Paginated<DictEntry>>)
    requires s.confirm.toDelete.Some?
    ensures var r := Deleted(s, deleted, listed);
      var del := Sent(Request(DELETE, ApiPath(ItemPath(Coll(s.props.mode), s.confirm.toDelete.value.id)), NoBody));
      && (deleted.Failed? ==> r == s.(effects := s.effects + [del]))
      && (deleted.Ok? ==>
            && r.effects == s.effects + [del, Sent(FirstPage(s.props.mode, s.props.pageSize)), Changed]
            && r.confirm == Confirm(false, None) && r.editor == s.editor)
  {
  }

  /** A write (if any) goes out; a rejected one stops the handler. Otherwise the dialog closes,
      the edit is forgotten, the list reloads and the parent is told. */
  function AfterWrite(s: TableState, write: Option<Request>, saved: Remote<()>, k: DialogKind,
                      listed: Remote<Paginated<DictEntry>>): TableState
  {
    var s1 := if write.Some? then s.(effects := s.effects + [Sent(write.value)]) else s;
    if write.Some? && saved.Failed? then s1
    else Reloaded(s1.(editor := Closed(s1.editor, k)), listed)
  }

  /** An update of the edited entry, or a create when none is being edited. */
  function Write(editingId: Option<ID>, mode: DictMode, body: Body): Request {
    if editingId.Some? then UpdateRequest(Coll(mode), editingId.value, body) else CreateRequest(Coll(mode), body)
  }

  /** The name dialog's `onSubmit`: a status or type write; in any other mode none. */
  function NameWrite(s: TableState, name: string): Option<Request> {
    if HasNameDialog(s.props.mode) then Some(Write(s.editor.editingId, s.props.mode, NameBody(name))) else None
  }

  function NameSubmitted(s: TableState, name: string, saved: Remote<()>, listed: Remote<Paginated<DictEntry>>): TableState {
    AfterWrite(s, NameWrite(s, name), saved, NameDialog, listed)
  }

  /** The category dialog's `onSubmit`: written to the categories whatever the mode. */
  function CategorySubmitted(s: TableState, payload: DictionaryDialogs.CategoryPayload, saved: Remote<()>,
                             listed: Remote<Paginated<DictEntry>>): TableState
  {
    var write := Write(s.editor.editingId, Categories, CategoryBody(payload.name, payload.cashFlowType));
    AfterWrite(s, Some(write), saved, CategoryDialog, listed)
  }

  function SubcategorySubmitted(s: TableState, payload: DictionaryDialogs.SubcategoryPayload, saved: Remote<()>,
                                listed: Remote<Paginated<DictEntry>>): TableState
  {
    var write := Write(s.editor.editingId, Subcategories, SubcategoryBody(payload.name, payload.category));
    AfterWrite(s, Some(write), saved, SubcategoryDialog, listed)
  }

  /** The write is a PATCH of the edited entry or a POST to the collection. */
  lemma WriteTargets(editingId: Option<ID>, mode: DictMode, body: Body)
    ensures editingId.Some? ==> Write(editingId, mode, body) == Request(PATCH, ApiPath(ItemPath(Coll(mode), editingId.value)), body)
    ensures editingId.None? ==> Write(editingId, mode, body) == Request(POST, ApiPath(CollectionPath(Coll(mode))), body)
  {
  }

  /** The outcome of any save: a rejected write leaves everything but the log as it was (the
      dialog stays open on the same entry); otherwise the dialog closes, the edit is forgotten,
      and the reload and the notice follow the write. */
  lemma AfterWriteOutcome(s: TableState, write: Option<Request>, saved: Remote<()>, k: DialogKind,
                          listed: Remote<Paginated<DictEntry>>)
    ensures var r := AfterWrite(s, write, saved, k, listed);
      var sent := if write.Some? then [Sent(write.value)] else [];
      && (write.Some? && saved.Failed? ==> r == s.(effects := s.effects + sent))
      && (!(write.Some? && saved.Failed?) ==>
            && r.effects == s.effects + sent + [Sent(FirstPage(s.props.mode, s.props.pageSize)), Changed]
            && r.editor.editingId.None?
            && r.confirm == s.confirm && r.props == s.props)
  {
  }

  /** Outside the name modes, a name submitted sends no write, only the reload. */
  lemma NameSubmitOutsideNameModes(s: TableState, name: string, saved: Remote<()>, listed: Remote<Paginated<DictEntry>>)
    requires !HasNameDialog(s.props.mode)
    ensures var r := NameSubmitted(s, name, saved, listed);
      r.effects == s.effects + [Sent(FirstPage(s.props.mode, s.props.pageSize)), Changed] && !r.editor.openNameDlg
  {
  }

  /** The page-size menu: tell the parent, then list the first page at the new size. */
  function PageSizeChosen(s: TableState, size: int, listed: Remote<Paginated<DictEntry>>): TableState {
    Listed(s.(effects := s.effects + [PageSizeChanged(size)]), None, Some(size), listed)
  }

  /** The page-size menu tells the parent first, then asks for the first page at the new size. */
  lemma PageSizeChangeNotifiesThenLists(s: TableState, size: int, listed: Remote<Paginated<DictEntry>>)
    ensures PageSizeChosen(s, size, listed).effects == s.effects + [PageSizeChanged(size), Sent(FirstPage(s.props.mode, size))]
    ensures PageSizeChosen(s, size, listed).props == s.props
  {
  }

  /** The parent re-renders the table with new props; its own state is kept. */
  function PropsReceived(s: TableState, p: TableProps): TableState {
    s.(props := p)
  }

  // ---------------------------------------------------------------------------------------
  // The component

  class DictionaryTable {
    var mode: DictMode
    var types: seq<CashFlowType>
    var categories: seq<Category>
    var pageSize: int
    var data: Option<Paginated<DictEntry>>
    var loading: bool
    var error: Option<string>
    var confirmOpen: bool
    var toDelete: Option<DeleteTarget>
    var openNameDlg: bool
    var nameInitial: string
    var editingId: Option<ID>
    var openCategoryDlg: bool
    var categoryInitial: Option<DictionaryDialogs.CategoryInitial>
    var openSubcategoryDlg: bool
    var subcategoryInitial: Option<DictionaryDialogs.SubcategoryInitial>
    ghost var effects: seq<Effect>

    function Props(): TableProps
      reads this
    {
      TableProps(mode, types, categories, pageSize)
    }

    function Ed(): Editor
      reads this
    {
      Editor(editingId, openNameDlg, nameInitial, openCategoryDlg, categoryInitial, openSubcategoryDlg, subcategoryInitial)
    }

    ghost function State(): TableState
      reads this
    {
      TableState(Props(), ListView(data, loading, error), Confirm(confirmOpen, toDelete), Ed(), effects)
    }

    /** Mounting: the initial state, then the effect's first `list()`. */
    constructor (p: TableProps, listed: Remote<Paginated<DictEntry>>)
      ensures State() == Listed(Initial(p), None, None, listed)
    {
      mode, types, categories, pageSize := p.mode, p.types, p.categories, p.pageSize;
      data, loading, error := None, false, None;
      confirmOpen, toDelete := false, None;
      openNameDlg, nameInitial, editingId := false, "", None;
      openCategoryDlg, categoryInitial := false, None;
      openSubcategoryDlg, subcategoryInitial := false, None;
      effects := [];
      new;
      List(None, None, listed);
    }

    /** A re-render by the parent with new props. */
    method ReceiveProps(p: TableProps)
      modifies this
      ensures State() == PropsReceived(old(State()), p)
    {
      mode, types, categories, pageSize := p.mode, p.types, p.categories, p.pageSize;
    }

    method BeginList(url: Option<string>, customSize: Option<int>)
      modifies this
      ensures State() == ListStarted(old(State()), url, customSize)
    {
      loading := true;
      error := None;
      var size := if customSize.Some? then customSize.value else pageSize;
      if url.Some? && url.value != "" {
        effects := effects + [Sent(ByUrlRequest(url.value))];
      } else {
        effects := effects + [Sent(FirstPage(mode, size))];
      }
    }

    method CompleteList(response: Remote<Paginated<DictEntry>>)
      modifies this
      ensures State() == ListSettled(old(State()), response)
    {
      match response {
        case Ok(page) => data := Some(page);
        case Failed(m) => error := Some(m);
      }
      loading := false;
    }

    method List(url: Option<string>, customSize: Option<int>, response: Remote<Paginated<DictEntry>>)
      modifies this
      ensures State() == Listed(old(State()), url, customSize, response)
    {
      BeginList(url, customSize);
      CompleteList(response);
    }

    /** Open the mode's dialog (the body shared by `openCreate` and `openEdit`). */
    method OpenDialog(id: Option<ID>, name: string, parent: Option<ID>)
      modifies this
      ensures State() == old(State()).(editor := Opened(old(Ed()), mode, id, name, parent))
    {
      editingId := id;
      if mode == Statuses || mode == CashFlowTypes {
        nameInitial := name;
        openNameDlg := true;
      } else if mode == Categories {
        categoryInitial := Some(DictionaryDialogs.CategoryInitial(name, parent));
        openCategoryDlg := true;
      } else {
        subcategoryInitial := Some(DictionaryDialogs.SubcategoryInitial(name, parent));
        openSubcategoryDlg := true;
      }
    }

    method OpenCreate()
      modifies this
      ensures State() == CreateOpened(old(State()))
    {
      var parent := if mode == Categories then (if |types| > 0 then Some(types[0].id) else None)
                    else (if |categories| > 0 then Some(categories[0].id) else None);
      OpenDialog(None, "", parent);
    }

    method OpenEdit(row: DictEntry)
      modifies this
      ensures State() == EditOpened(old(State()), row)
    {
      OpenDialog(Some(row.Id()), row.Name(), if mode == Categories then row.TypeParent() else row.CategoryParent());
    }

    /** A row's delete button. */
    method AskDelete(row: DictEntry)
      modifies this
      ensures State() == old(State()).(confirm := Confirm(true, Some(DeleteTarget(row.Id(), row.Name()))))
    {
      toDelete := Some(DeleteTarget(row.Id(), row.Name()));
      confirmOpen := true;
    }

    method CloseConfirm()
      modifies this
      ensures State() == old(State()).(confirm := old(State()).confirm.(open := false))
    {
      confirmOpen := false;
    }

    /** `list(); onChanged()`. */
    method Reload(listed: Remote<Paginated<DictEntry>>)
      modifies this
      ensures State() == Reloaded(old(State()), listed)
    {
      List(None, None, listed);
      effects := effects + [Changed];
    }

    method HandleDelete(deleted: Remote<()>, listed: Remote<Paginated<DictEntry>>)
      modifies this
      ensures State() == Deleted(old(State()), deleted, listed)
    {
      if toDelete.None? {
        return;
      }
      effects := effects + [Sent(DeleteRequest(Dictionary(mode), toDelete.value.id))];
      if deleted.Failed? {
        return;
      }
      confirmOpen := false;
      toDelete := None;
      Reload(listed);
    }

    /** Close dialog `k` and forget the edited id. */
    method Close(k: DialogKind)
      modifies this
      ensures State() == old(State()).(editor := Closed(old(Ed()), k))
    {
      match k {
        case NameDialog => openNameDlg := false;
        case CategoryDialog => openCategoryDlg := false;
        case SubcategoryDialog => openSubcategoryDlg := false;
      }
      editingId := None;
    }

    /** Send the write if there is one; unless it was rejected, close dialog `k` and reload. */
    method Save(write: Option<Request>, saved: Remote<()>, k: DialogKind, listed: Remote<Paginated<DictEntry>>)
      modifies this
      ensures State() == AfterWrite(old(State()), write, saved, k, listed)
    {
      if write.Some? {
        effects := effects + [Sent(write.value)];
        if saved.Failed? {
          return;
        }
      }
      Close(k);
      Reload(listed);
    }

    method HandleSubmitName(name: string, saved: Remote<()>, listed: Remote<Paginated<DictEntry>>)
      modifies this
      ensures State() == NameSubmitted(old(State()), name, saved, listed)
    {
      var write := if mode == Statuses || mode == CashFlowTypes then Some(Write(editingId, mode, NameBody(name))) else None;
      Save(write, saved, NameDialog, listed);
    }

    method HandleSubmitCategory(payload: DictionaryDialogs.CategoryPayload, saved: Remote<()>, listed: Remote<Paginated<DictEntry>>)
      modifies this
      ensures State() == CategorySubmitted(old(State()), payload, saved, listed)
    {
      Save(Some(Write(editingId, Categories, CategoryBody(payload.name, payload.cashFlowType))), saved, CategoryDialog, listed);
    }

    method HandleSubmitSubcategory(payload: DictionaryDialogs.SubcategoryPayload, saved: Remote<()>, listed: Remote<Paginated<DictEntry>>)
      modifies this
      ensures State() == SubcategorySubmitted(old(State()), payload, saved, listed)
    {
      Save(Some(Write(editingId, Subcategories, SubcategoryBody(payload.name, payload.category))), saved, SubcategoryDialog, listed);
    }

    method ChangePageSize(size: int, listed: Remote<Paginated<DictEntry>>)
      modifies this
      ensures State() == PageSizeChosen(old(State()), size, listed)
    {
      effects := effects + [PageSizeChanged(size)];
      List(None, Some(size), listed);
    }

    /** "Previous" and "Next" follow their link only when it is truthy. */
    method GoPrevious(listed: Remote<Paginated<DictEntry>>)
      modifies this
      ensures old(data).Some? && IsLink(old(data).value.previous) ==>
                State() == Listed(old(State()), old(data).value.previous, None, listed)
      ensures !(old(data).Some? && IsLink(old(data).value.previous)) ==> State() == old(State())
    {
      if data.Some? && IsLink(data.value.previous) {
        List(data.value.previous, None, listed);
      }
    }

    method GoNext(listed: Remote<Paginated<DictEntry>>)
      modifies this
      ensures old(data).Some? && IsLink(old(data).value.next) ==>
                State() == Listed(old(State()), old(data).value.next, None, listed)
      ensures !(old(data).Some? && IsLink(old(data).value.next)) ==> State() == old(State())
    {
      if data.Some? && IsLink(data.value.next) {
        List(data.value.next, None, listed);
      }
    }
  }
}
