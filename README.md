# Cash-flow console: a verified model of its filters, forms and list controllers

The cash-flow management console keeps a ledger of money movements. Each record carries a
status and a three-level classification: a type, a category under that type, and a
subcategory under that category. A React client lets an operator browse, filter and page
the records, and edit them and the four dictionaries. A Django REST server validates and
serialises the records.

This project models the logic of that console in Dafny and proves what it promises. Each
source file has one module.

- `common.dfy` (`Common`): shared pieces.
  - Optional values.
  - Server ids, which are positive and therefore truthy in the client.
  - Remote outcomes: either a value or a failure message.
  - The order-preserving sub-list that `Array.prototype.filter` computes.
- `types.dfy` (`Types`): the records the client exchanges with the server (`types.ts`).
  - It also names the filter's fields one by one (`FilterField`, `Get`), so that "nothing
    else changes" can be stated field by field (`AgreeOutside`).
- `filters_bar.dfy` (`FiltersBar`): the filter bar.
  - Its menus are sub-lists of the dictionaries.
  - Its handlers each build a new filter.
  - Any run of the actions the bar permits keeps the type, category and subcategory
    consistent.
- `api.dfy` (`Api`): the remote access layer.
  - `buildQuery`, as a loop proved against a specification function.
  - The `toApiFilters` projection.
  - The request each API entry point issues, as a value: verb, path or absolute URL, body.
  - How `http` classifies a response.
- `cash_flow_form_dialog.dfy` (`CashFlowFormDialog`): the record form.
  - A class with the six input fields.
  - The cascade that clears child fields when a parent changes.
  - The filtered menus.
  - The submit guard and the payload.
- `dictionary_dialogs.dfy` (`DictionaryDialogs`): the three dictionary dialogs.
  - ECMAScript `trim`, and the "save enabled" rules built on it.
- `app.dfy` (`AppComponent`): the top-level component.
  - A class holding the filter, the displayed page, `loading` and `error`, the four
    dictionary lists, and the form and confirmation state.
  - Its state is also available as one value (`AppState`), and each handler is proved equal
    to a transition function on that value (`Fetched`, `DictionariesLoaded`, ...).
  - The lemmas about those transitions state the refresh plans.
- `dictionary_table.dfy` (`DictionaryTableComponent`): the dictionary section, modelled the
  same way.
- `serializers.dfy` (`Serializers`): the server side.
  - The cross-reference check and the amount check on incoming records.
  - The read-only `*_name` fields added to outgoing records.

Remote calls have no transport in the model. A handler takes, as a parameter, how each call
it awaits settles: `Ok(value)` or `Failed(message)`. Every request a component issues, and
every callback it makes into its parent, is appended to a ghost log (`sent`, `effects`). The
log is what the refresh plans are stated about.

Some behaviours of the code are easy to assume otherwise. The model states each one as the
code has it:

- The code keeps no cursor stack and no request sequence number. A late response is simply
  applied.
- After a mutation, the refetch asks for the first page of the current filter, not for the
  page on display (`RefetchReturnsToFirstPage`, `ReloadIsFirstPageThenNotice`).
- The four dictionaries are loaded with one `Promise.all`. Either all four lists are
  replaced or none is. There is no per-list fail-soft (`DictionaryLoadIsAllOrNothing`).
- The dropdown sources ask for a single page of 100 entries. They do not page to
  exhaustion.
- Following a `next`/`previous` link sends the link verbatim (`ByUrlRequest`).

## Model

| member | source | states |
|---|---|---|
| Common.Filter | frontend/src/components/FiltersBar.tsx:20 | the filtered list is no longer than the input, and holds only input elements that pass the test |
| Common.FilterConcat | frontend/src/components/FiltersBar.tsx:19-24 | filtering distributes over concatenation, so the options keep the dictionary's order |
| Common.FilterKeeps | frontend/src/components/FiltersBar.tsx:20 | no element that passes the test is dropped |
| Common.FilterAll | frontend/src/components/FiltersBar.tsx:20 | when every element passes, the list comes back unchanged |
| Common.FilterMembership | frontend/src/components/FiltersBar.tsx:20 | x is in the filtered list iff x is in the input and passes the test |
| FiltersBar.CategoryOptions | frontend/src/components/FiltersBar.tsx:19-21 | with no type chosen, the whole list; with a type chosen, exactly the categories of that type |
| FiltersBar.SubcategoryOptions | frontend/src/components/FiltersBar.tsx:22-24 | the same rule, keyed on the chosen category |
| FiltersBar.OptionsKeepOrder | frontend/src/components/FiltersBar.tsx:19-24 | the options of a concatenated list are the options of each part, concatenated: the original order is kept |
| FiltersBar.SelectType | frontend/src/components/FiltersBar.tsx:33-36 | the type becomes the choice ("all" = unset), category and subcategory are cleared, and every other field keeps its value |
| FiltersBar.SelectCategory | frontend/src/components/FiltersBar.tsx:50-53 | the category becomes the choice, only the subcategory is cleared, and the rest is unchanged |
| FiltersBar.SelectSubcategory | frontend/src/components/FiltersBar.tsx:68-71 | only the subcategory changes |
| FiltersBar.SelectStatus | frontend/src/components/FiltersBar.tsx:86-89 | only the status changes |
| FiltersBar.DateInput | frontend/src/components/FiltersBar.tsx:103 | an empty input gives no bound; any other text is kept as entered |
| FiltersBar.EnterDateFrom | frontend/src/components/FiltersBar.tsx:103 | only `created_at_after` changes, to the entered date or unset |
| FiltersBar.EnterDateTo | frontend/src/components/FiltersBar.tsx:120 | only `created_at_before` changes, to the entered date or unset |
| FiltersBar.OnChangeKeepsPageSize | frontend/src/components/FiltersBar.tsx:33-120 | no bar action touches the page size |
| FiltersBar.OnChangePreservesConsistency | frontend/src/components/FiltersBar.tsx:19-73 | a permitted action keeps the filter consistent; a permitted action uses an enabled menu and an offered option, and consistent means the category is under the type and the subcategory under the category |
| FiltersBar.RunPreservesConsistency | frontend/src/components/FiltersBar.tsx:19-73 | any run of permitted actions ends in a consistent filter |
| FiltersBar.TypeChangeDropsChildren | frontend/src/components/FiltersBar.tsx:35 | a concrete case: a new type drops the previous category and subcategory |
| Api.NatText | frontend/src/api.ts:9 | `String(n)` for a natural number is never empty (what it spells out is stated by `NatTextRoundTrip`) |
| Api.NatTextRoundTrip | frontend/src/api.ts:9 | reading the digits of `String(n)` back gives `n` |
| Api.NatTextInjective | frontend/src/api.ts:58 | two numbers render alike iff they are equal |
| Api.ItemPathNamesTheRecord | frontend/src/api.ts:57-68 | `/<collection>/<id>/` names exactly one id: two item paths, two deletes or two updates of the same collection are equal iff their ids are |
| Api.AppendedConcat | frontend/src/api.ts:7-11 | `buildQuery` treats each entry on its own, in input order |
| Api.AppendedKeepsSentEntries | frontend/src/api.ts:8-9 | entries with undefined, null or `''` values are dropped; all others, including 0, are kept with their keys |
| Api.EncodedEmptyOnlyForNoPairs | frontend/src/api.ts:12 | the encoded query is empty iff no pair survived |
| Api.QueryStringShape | frontend/src/api.ts:12-13 | `''` when no entry survives, otherwise `?` followed by the pairs |
| Api.BuildQuery | frontend/src/api.ts:5-14 | the loop over the entries returns exactly the specified query string |
| Api.ParamOf | frontend/src/api.ts:91-101 | a filter field becomes `undefined` iff it is unset |
| Api.ToApiFilters | frontend/src/api.ts:91-101 | the projection has the seven fixed keys, in order, and each key holds the value of its own filter field (status, type, category, subcategory, both dates, page size); `ordering` and `page` are read by no key |
| Api.OnlyPageSizeIsSent | frontend/src/api.ts:71-72 | a filter that sets only the page size `n` is sent as `?page_size=<n>` |
| Api.ToApiFiltersSeesSevenFields | frontend/src/api.ts:91-101 | two filters project alike iff they agree on every field except `ordering` and `page` |
| Api.Results | frontend/src/api.ts:45-54 | a dropdown source hands on only the `results` of a successful page, and passes a failure on unchanged |
| Api.DropdownQueryIsBuildQuery | frontend/src/api.ts:45-55 | the hard-coded dropdown query `?page_size=100` is what `buildQuery` gives for `{page_size: 100}` |
| Api.Classify | frontend/src/api.ts:21-26 | a non-2xx status throws `HTTP <status>: <body>` (empty body when reading it failed); 204 returns undefined; any other 2xx parses JSON |
| AppComponent.ResetFilters | frontend/src/App.tsx:101 | `page_size` is kept and every other field is unset |
| AppComponent.ResetFiltersIdempotent | frontend/src/App.tsx:101 | resetting twice equals resetting once, and a reset filter is the initial `{page_size: 10}` with the current size |
| AppComponent.WithPageSize | frontend/src/App.tsx:162-166 | `page_size` becomes the new size and `page` becomes 1; every other field is unchanged |
| AppComponent.InitialRequest | frontend/src/App.tsx:18 | the initial filter fetches `/cash_flows/?page_size=10` |
| AppComponent.PageResetIsNotSent | frontend/src/App.tsx:162-166 | the `page: 1` the size change adds never reaches the request, because `toApiFilters` drops it |
| AppComponent.DictPageSizes.With | frontend/src/App.tsx:199 | only the shown dictionary's page size changes |
| AppComponent.FetchedOutcome | frontend/src/App.tsx:41-50 | outside the record list nothing changes; in it, `loading` is set and `error` cleared first; then `data` is replaced on success and `error` set on failure; `loading` is off afterwards and one first-page request is sent |
| AppComponent.DictionaryLoadIsAllOrNothing | frontend/src/App.tsx:57-70 | the four dropdown requests go out; all four lists are replaced iff all four fetches succeed; one failure leaves all four and everything else unchanged |
| AppComponent.DictionaryChangeRefreshPlan | frontend/src/App.tsx:116-122 | a dictionary change sends the four dropdown requests, then the record request exactly when the record list is shown |
| AppComponent.RefetchReturnsToFirstPage | frontend/src/App.tsx:78 | after a mutation the refetch is the filter's first page, even when a `next` link was being shown |
| AppComponent.FormAndBarCategoryMenus | frontend/src/components/FiltersBar.tsx:19-21 | once a type is chosen, the form and the bar offer the same categories; with none, the bar offers all and the form none |
| AppComponent.SaveTargetsTheEditedRow | frontend/src/App.tsx:84-99 | whatever is typed into a form opened on a row, the save is a PATCH of that row's id; in a form opened by "Add" it is a POST; the form stays open only when the write fails |
| AppComponent.EditUnchangedResendsTheRow | frontend/src/App.tsx:182-236 | opening the form on a row with a valid amount and saving it unchanged sends a PATCH of that row carrying its own references, amount and comment |
| AppComponent.TableSizeReachesLaterReloads | frontend/src/App.tsx:195-199 | a page size picked in the dictionary table comes back to it as its `pageSize` prop, so its next reload after a write or a delete asks for pages of that size |
| AppComponent.ReloadedTypesReachTheTable | frontend/src/App.tsx:193-198 | once the dictionaries reload successfully after a change, a new category opened in the table starts under the first freshly loaded type |
| AppComponent.MountLoadsFirstPageAndDictionaries | frontend/src/App.tsx:13-70 | after mounting, the first record page at `page_size` 10 and then the four dropdown lists have been requested; `loading` is off, the page or the error message is shown, the four lists are all filled or all still empty, the filter is `{page_size: 10}` and no dialog is open |
| AppComponent.App.constructor | frontend/src/App.tsx:13-70 | the initial `useState` values (empty dictionaries, `{page_size: 10}`, `loading` on, the record list shown), then the mount effects: the record fetch, then the dictionary load |
| AppComponent.App.BeginFetch | frontend/src/App.tsx:44-46 | `loading` is set, `error` is cleared and the first-page request is sent |
| AppComponent.App.CompleteFetch | frontend/src/App.tsx:47-49 | the page or the message is stored, and `loading` goes off |
| AppComponent.App.FetchData | frontend/src/App.tsx:41-50 | the component's new state is `Fetched` of the old one |
| AppComponent.App.LoadDictionaries | frontend/src/App.tsx:104-113 | the new state is `DictionariesLoaded` of the old one |
| AppComponent.App.OnDictionariesChanged | frontend/src/App.tsx:116-122 | the dictionaries reload, then the records reload when the record list is shown |
| AppComponent.App.AskDelete | frontend/src/App.tsx:183 | the row is remembered and the confirmation opens |
| AppComponent.App.CloseConfirm | frontend/src/App.tsx:249 | only the confirmation closes |
| AppComponent.App.HandleDelete | frontend/src/App.tsx:72-82 | no-op with nothing pending; on success the confirmation closes, the row is forgotten and the list refetches; on failure only `error` is set; the delete request is logged either way |
| AppComponent.App.OpenCreate | frontend/src/App.tsx:131 | the form opens on no record |
| AppComponent.App.OpenEdit | frontend/src/App.tsx:182 | the form opens on the row |
| AppComponent.App.CloseForm | frontend/src/App.tsx:241 | the form closes and the edited row is dropped |
| AppComponent.App.HandleSubmit | frontend/src/App.tsx:84-99 | the new state is `Submitted` of the old one: with an id, a PATCH of that record with the id left out of the body; without one, a POST; on success the form closes, `editing` clears and the list refetches; on failure only `error` is set |
| AppComponent.App.ChangeFilters | frontend/src/App.tsx:147 | the filter becomes the one the bar built, and the page-size menu and filter stay in step |
| AppComponent.App.ResetFilter | frontend/src/App.tsx:101 | the filter is reset, with the page size kept |
| AppComponent.App.ChangePageSize | frontend/src/App.tsx:158-166 | the menu value and the filter both take the new size, and the page resets to 1 |
| AppComponent.App.GoPrevious | frontend/src/App.tsx:152 | only with a truthy `previous` link: the link is requested and, on success, its page replaces `data`; a failure changes nothing else |
| AppComponent.App.GoNext | frontend/src/App.tsx:178 | the same for the `next` link |
| AppComponent.App.SetMode | frontend/src/App.tsx:207-211 | only the shown section changes |
| AppComponent.App.ChangeDictPageSize | frontend/src/App.tsx:199 | the new state is `DictPageSizeChanged` of the old one: in a dictionary section, only that dictionary's page size changes |
| CashFlowFormDialog.InitialOf | frontend/src/App.tsx:236 | a record being edited becomes a form `initial` with all its fields present |
| CashFlowFormDialog.EditRoundTrip | frontend/src/components/CashFlowFormDialog.tsx:36-69 | a form reset from a row and saved unchanged emits a payload iff the row's amount is valid, and then the payload is the row's id, its four references, its amount, and its comment (none when empty) |
| CashFlowFormDialog.CreateCarriesNoId | frontend/src/components/CashFlowFormDialog.tsx:53-63 | a form with no `initial` never emits an id |
| CashFlowFormDialog.ResetFields | frontend/src/components/CashFlowFormDialog.tsx:33-43 | each of the six fields comes from `initial`, or is blank where `initial` lacks it |
| CashFlowFormDialog.TypeChanged | frontend/src/components/CashFlowFormDialog.tsx:85-90 | the type is set, category and subcategory are cleared, and the rest is unchanged |
| CashFlowFormDialog.CategoryChanged | frontend/src/components/CashFlowFormDialog.tsx:103-107 | the category is set, only the subcategory is cleared, and the rest is unchanged |
| CashFlowFormDialog.CategoryOptions | frontend/src/components/CashFlowFormDialog.tsx:45-47 | empty with no type; with a type, exactly that type's categories |
| CashFlowFormDialog.SubcategoryOptions | frontend/src/components/CashFlowFormDialog.tsx:49-51 | empty with no category; with a category, exactly its subcategories |
| CashFlowFormDialog.SubmitPayload | frontend/src/components/CashFlowFormDialog.tsx:53-70 | a payload is emitted iff the type, category, subcategory, status and amount are all set and the amount is finite and positive; it carries the id only when editing, copies the four ids and the amount text, and turns an empty comment into no comment |
| CashFlowFormDialog.SaveDisabledMatchesSubmitGuard | frontend/src/components/CashFlowFormDialog.tsx:60-167 | the save button is disabled exactly when submitting would emit nothing |
| CashFlowFormDialog.CascadePreservesFormConsistency | frontend/src/components/CashFlowFormDialog.tsx:45-121 | changing the type, or choosing a category or subcategory from its menu, keeps the form's category under its type and subcategory under its category |
| CashFlowFormDialog.CashFlowForm.constructor | frontend/src/components/CashFlowFormDialog.tsx:26-31 | the six fields start from `initial`, or blank |
| CashFlowFormDialog.CashFlowForm.Open | frontend/src/components/CashFlowFormDialog.tsx:33-43 | all six fields are reset from the new `initial` |
| CashFlowFormDialog.CashFlowForm.ChangeType | frontend/src/components/CashFlowFormDialog.tsx:85-90 | the fields become `TypeChanged` of the old fields |
| CashFlowFormDialog.CashFlowForm.ChangeCategory | frontend/src/components/CashFlowFormDialog.tsx:103-107 | the fields become `CategoryChanged` of the old fields |
| CashFlowFormDialog.CashFlowForm.ChangeSubcategory | frontend/src/components/CashFlowFormDialog.tsx:121 | only the subcategory changes |
| CashFlowFormDialog.CashFlowForm.ChangeStatus | frontend/src/components/CashFlowFormDialog.tsx:135 | only the status changes |
| CashFlowFormDialog.CashFlowForm.ChangeAmount | frontend/src/components/CashFlowFormDialog.tsx:148 | only the amount text changes |
| CashFlowFormDialog.CashFlowForm.ChangeComment | frontend/src/components/CashFlowFormDialog.tsx:158 | only the comment changes |
| CashFlowFormDialog.CashFlowForm.Submit | frontend/src/components/CashFlowFormDialog.tsx:59-74 | what is handed to `onSubmit` is `SubmitPayload` of the current fields |
| DictionaryDialogs.TrimStartEmptyIffBlank | frontend/src/components/DictionaryDialogs.tsx:17 | trimming the front leaves nothing iff every character is white space, and otherwise starts at a non-space |
| DictionaryDialogs.TrimEndKeepsNonWhitespaceHead | frontend/src/components/DictionaryDialogs.tsx:17 | trimming the end never removes a leading non-space character |
| DictionaryDialogs.TrimEmptyIffBlank | frontend/src/components/DictionaryDialogs.tsx:17 | `name.trim()` is empty iff the name is all ECMAScript white space |
| DictionaryDialogs.TypeMenu | frontend/src/components/DictionaryDialogs.tsx:36 | every type is offered, in order, and nothing else: an id is in the menu iff some type has it |
| DictionaryDialogs.CategoryMenu | frontend/src/components/DictionaryDialogs.tsx:61 | every category is offered, in order, and nothing else |
| DictionaryDialogs.SubcategoryParentMenuIsUnfiltered | frontend/src/components/DictionaryDialogs.tsx:61 | a category of another type is still offered as a subcategory's parent, while the record form, once a type is chosen, leaves it out |
| DictionaryDialogs.SimpleNameDialog.constructor | frontend/src/components/DictionaryDialogs.tsx:7 | the name starts blank |
| DictionaryDialogs.SimpleNameDialog.Open | frontend/src/components/DictionaryDialogs.tsx:8 | opening resets the name to `initialName`, or blank |
| DictionaryDialogs.SimpleNameDialog.ChangeName | frontend/src/components/DictionaryDialogs.tsx:13 | the name becomes the typed text |
| DictionaryDialogs.SimpleNameDialog.Save | frontend/src/components/DictionaryDialogs.tsx:17 | a name is emitted iff it is not blank, and it is the untrimmed input |
| DictionaryDialogs.CategoryDialog.constructor | frontend/src/components/DictionaryDialogs.tsx:25-26 | blank name, no type |
| DictionaryDialogs.CategoryDialog.Open | frontend/src/components/DictionaryDialogs.tsx:27 | opening resets the name and the type from `initial` |
| DictionaryDialogs.CategoryDialog.ChangeName | frontend/src/components/DictionaryDialogs.tsx:33 | only the name changes |
| DictionaryDialogs.CategoryDialog.ChooseType | frontend/src/components/DictionaryDialogs.tsx:34-36 | a choice from the type menu (or the blank item) becomes the type, so a chosen type is one of the listed types; the name is unchanged |
| DictionaryDialogs.CategoryDialog.Save | frontend/src/components/DictionaryDialogs.tsx:42 | emits `{name, cash_flow_type}` iff the name is not blank and a type is chosen |
| DictionaryDialogs.SubcategoryDialog.constructor | frontend/src/components/DictionaryDialogs.tsx:50-51 | blank name, no category |
| DictionaryDialogs.SubcategoryDialog.Open | frontend/src/components/DictionaryDialogs.tsx:52 | opening resets the name and the category from `initial` |
| DictionaryDialogs.SubcategoryDialog.ChangeName | frontend/src/components/DictionaryDialogs.tsx:58 | only the name changes |
| DictionaryDialogs.SubcategoryDialog.ChooseCategory | frontend/src/components/DictionaryDialogs.tsx:59-61 | a choice from the category menu (or the blank item) becomes the category, so a chosen category is one of the listed categories; the name is unchanged |
| DictionaryDialogs.SubcategoryDialog.Save | frontend/src/components/DictionaryDialogs.tsx:67 | emits `{name, category}` iff the name is not blank and a category is chosen |
| DictionaryTableComponent.ListForChoosesSource | frontend/src/components/DictionaryTable.tsx:49-57 | a truthy url is fetched as given; otherwise the mode's collection is fetched with `?page_size=` set to the explicit size if given, else the prop |
| DictionaryTableComponent.ListedOutcome | frontend/src/components/DictionaryTable.tsx:46-61 | `loading` is set and `error` cleared first; success replaces the rows; failure keeps the rows and sets the message; `loading` is off at the end; nothing else changes |
| DictionaryTableComponent.ReloadIsFirstPageThenNotice | frontend/src/components/DictionaryTable.tsx:110-111 | the post-write reload is the first page at the prop's size, followed by `onChanged` |
| DictionaryTableComponent.OpenedShowsTheModesDialog | frontend/src/components/DictionaryTable.tsx:66-92 | opening sets the edited id and seeds and opens exactly the current mode's dialog; the other dialogs are untouched |
| DictionaryTableComponent.CreateSeedsFirstParent | frontend/src/components/DictionaryTable.tsx:66-78 | create mode has no edited id; a name dialog starts blank; a new category starts under the first type (none when there are no types); a new subcategory starts under the first category |
| DictionaryTableComponent.EditSeedsTheRow | frontend/src/components/DictionaryTable.tsx:80-92 | editing takes the row's id and name, and its parent id when the row has one |
| DictionaryTableComponent.DeleteOutcome | frontend/src/components/DictionaryTable.tsx:99-112 | a rejected delete stops with only the request logged; a successful one clears the confirmation, then reloads the first page, then calls `onChanged` |
| DictionaryTableComponent.WriteTargets | frontend/src/components/DictionaryTable.tsx:116-137 | with an edited id, a PATCH of that entry; otherwise a POST to the collection |
| DictionaryTableComponent.AfterWriteOutcome | frontend/src/components/DictionaryTable.tsx:114-141 | a rejected write leaves every field as it was, so the dialog stays open on the same entry; otherwise the dialog closes, the edited id clears, then the reload and `onChanged` follow |
| DictionaryTableComponent.NameSubmitOutsideNameModes | frontend/src/components/DictionaryTable.tsx:114-125 | outside statuses and types a submitted name sends no write, but the dialog still closes and the list reloads |
| DictionaryTableComponent.PageSizeChangeNotifiesThenLists | frontend/src/components/DictionaryTable.tsx:236-240 | the parent is told the new size first, then the first page at that size is requested |
| DictionaryTableComponent.DictionaryTable.constructor | frontend/src/components/DictionaryTable.tsx:20-64 | all state starts empty, then the first `list()` runs |
| DictionaryTableComponent.DictionaryTable.ReceiveProps | frontend/src/components/DictionaryTable.tsx:19 | a re-render by the parent replaces the four props and keeps the table's own state |
| DictionaryTableComponent.DictionaryTable.BeginList | frontend/src/components/DictionaryTable.tsx:47-58 | `loading` is set, `error` is cleared and the chosen request is sent |
| DictionaryTableComponent.DictionaryTable.CompleteList | frontend/src/components/DictionaryTable.tsx:59-61 | the page or the message is stored, then `loading` goes off |
| DictionaryTableComponent.DictionaryTable.List | frontend/src/components/DictionaryTable.tsx:46-62 | the new state is `Listed` of the old one |
| DictionaryTableComponent.DictionaryTable.OpenDialog | frontend/src/components/DictionaryTable.tsx:66-92 | the editor part of the state becomes `Opened` of the old one |
| DictionaryTableComponent.DictionaryTable.OpenCreate | frontend/src/components/DictionaryTable.tsx:66-78 | the new state is `CreateOpened` of the old one |
| DictionaryTableComponent.DictionaryTable.OpenEdit | frontend/src/components/DictionaryTable.tsx:80-92 | the new state is `EditOpened` of the old one |
| DictionaryTableComponent.DictionaryTable.AskDelete | frontend/src/components/DictionaryTable.tsx:94-97 | the row's id and name are remembered and the confirmation opens |
| DictionaryTableComponent.DictionaryTable.CloseConfirm | frontend/src/components/DictionaryTable.tsx:266 | only the confirmation closes |
| DictionaryTableComponent.DictionaryTable.Reload | frontend/src/components/DictionaryTable.tsx:110-111 | the first page is listed, then `onChanged` is called |
| DictionaryTableComponent.DictionaryTable.HandleDelete | frontend/src/components/DictionaryTable.tsx:99-112 | the new state is `Deleted` of the old one |
| DictionaryTableComponent.DictionaryTable.Close | frontend/src/components/DictionaryTable.tsx:256-260 | the dialog closes and the edited id clears |
| DictionaryTableComponent.DictionaryTable.Save | frontend/src/components/DictionaryTable.tsx:114-141 | the new state is `AfterWrite` of the old one |
| DictionaryTableComponent.DictionaryTable.HandleSubmitName | frontend/src/components/DictionaryTable.tsx:114-125 | the new state is `NameSubmitted` of the old one |
| DictionaryTableComponent.DictionaryTable.HandleSubmitCategory | frontend/src/components/DictionaryTable.tsx:127-133 | the new state is `CategorySubmitted` of the old one; the mode is not consulted |
| DictionaryTableComponent.DictionaryTable.HandleSubmitSubcategory | frontend/src/components/DictionaryTable.tsx:135-141 | the new state is `SubcategorySubmitted` of the old one |
| DictionaryTableComponent.DictionaryTable.ChangePageSize | frontend/src/components/DictionaryTable.tsx:236-240 | the new state is `PageSizeChosen` of the old one |
| DictionaryTableComponent.DictionaryTable.GoPrevious | frontend/src/components/DictionaryTable.tsx:230 | only with a truthy `previous` link, that link is listed; otherwise nothing changes |
| DictionaryTableComponent.DictionaryTable.GoNext | frontend/src/components/DictionaryTable.tsx:251 | the same for the `next` link |
| Serializers.Validate | backend/cash_flow/serializers.py:89-105 | rejects iff the subcategory-category pair or the category-type pair is present and mismatched; an accepted input comes back unchanged |
| Serializers.ValidateErrorOrder | backend/cash_flow/serializers.py:97-103 | a subcategory mismatch raises the `subcategory` error whatever else holds; the `category` error is raised only when the subcategory is fine |
| Serializers.ValidateCompleteIffConsistent | backend/cash_flow/serializers.py:89-105 | with all three references present, accepted iff the subcategory is under the category and the category is under the type |
| Serializers.MissingFieldSkipsChecks | backend/cash_flow/serializers.py:93-101 | a missing category skips both checks; a missing subcategory or type skips the check it is part of |
| Serializers.BothMismatchedReportsSubcategory | backend/cash_flow/serializers.py:97-103 | a concrete case: with both links broken, the subcategory error is the one raised |
| Serializers.ValidateAmount | backend/cash_flow/serializers.py:107-112 | accepted iff the amount is positive, and then unchanged; otherwise the `amount` error |
| Serializers.Merged | backend/cash_flow/serializers.py:93-95 | the stored record a partial update produces: every field present; for each of status, type, category, subcategory, amount and comment the sent value if any, else the stored one |
| Serializers.PartialUpdateEscapesValidate | backend/cash_flow/serializers.py:93-105 | as written, a partial update that changes only the subcategory is accepted though the stored record ends up inconsistent |
| Serializers.ValidateUpdate | backend/cash_flow/serializers.py:89-105 | the corrected check: an accepted update passes its data on unchanged |
| Serializers.ValidateUpdateKeepsRecordConsistent | backend/cash_flow/serializers.py:90-91 | the corrected check accepts iff the resulting record is consistent, and agrees with `Validate` whenever all references are sent |
| Serializers.OrElse | backend/cash_flow/serializers.py:93-95 | a sent value wins over the stored one |
| Serializers.SerializeCashFlow | backend/cash_flow/serializers.py:51-87 | the stored columns are copied through unchanged |
| Serializers.SerializeCategory | backend/cash_flow/serializers.py:27-36 | id, name and type id are copied through |
| Serializers.SerializeSubcategory | backend/cash_flow/serializers.py:39-48 | id, name and category id are copied through |
| Serializers.CategoryRenameShowsThrough | backend/cash_flow/serializers.py:43-60 | renaming a category changes `category_name` on its records and subcategories at the next serialisation, and nothing else |
| Serializers.TypeRenameShowsThrough | backend/cash_flow/serializers.py:31-59 | a renamed type shows in `cash_flow_type_name` on its records and categories, and nothing else changes |
| Serializers.StatusAndSubcategoryRenameShowThrough | backend/cash_flow/serializers.py:61-62 | renamed statuses and subcategories show in `status_name` and `subcategory_name`, and nothing else changes |

## Left out

- Transport: `fetch`, the `BASE_API` prefix and JSON parsing are not modelled. A request is a value whose target is a path (`ApiPath`) or a verbatim URL (`AbsoluteUrl`). Each response is a parameter.
- Percent-encoding by `URLSearchParams`: a query is a sequence of key/value pairs joined as `k=v` with `&`.
- `Number(text)`: JavaScript's string-to-number conversion is a parameter of the form (`NumberParser`); float parsing is not modelled.
- Filter ids typed `ID | ''`: the `''` variant is never produced by any handler, which all map the empty menu value to undefined, so ids are `Option<ID>`.
- Asynchrony and interleaving: each handler runs to completion, with the calls it starts already settled. There is no request sequencing in the code to model.
  - The intermediate `loading` state shows only through the split `BeginFetch`/`CompleteFetch` and `BeginList`/`CompleteList` steps.
  - In the dictionary table, `list()` is not awaited before `onChanged()`: the log records the list request before the notice, and the page is stored as part of the same step.
- React effects and re-renders: handlers are explicit method calls.
  - App's two mount effects run in its constructor, with their outcomes as parameters. The refetch that runs when App's filter or mode changes after mounting is not modelled.
  - New props reach the table through `ReceiveProps`, but the re-list that a new `mode` or `pageSize` prop triggers is not modelled. As a consequence, the table's page-size change lists once in the model, where the source lists twice with the same request.
  - The form's and dialogs' reset-on-open effects are the explicit `Open` methods.
  - The `cancelled` flag of the mount-time dictionary load is not modelled.
- Logging: `console.error` of a failed dictionary load and `console.log` of the submitted payload are not modelled. A failed load changes no state.
- Presentation: JSX, MUI layout, titles, labels and the confirmation text are not modelled, and neither is `ConfirmDialog`, `CashFlowTable` or the dictionary table's row rendering.
- Server framework behaviour: id resolution by `PrimaryKeyRelatedField` (an unknown id is refused before `validate` runs), `DecimalField` parsing (the amount is a `real`), pagination, filtering, routing and model constraints are not modelled.
- Serializers.SerializeCashFlow: requires that every foreign key of the row resolves, which the database guarantees.
- AppComponent.App.ChangeDictPageSize: in the record section it changes nothing, because the source only passes this callback to the dictionary table, which is shown only in a dictionary section.

## Findings

| source | as written | input that shows it | evidently intended | confidence | as-written member | corrected member |
|---|---|---|---|---|---|---|
| backend/cash_flow/serializers.py:93-105 | `validate` reads the references only from the request data, so a partial update (PATCH) that omits `category` skips both cross-checks | stored record with category 1 (type 1) and subcategory 1; PATCH that sends only subcategory 7, whose category is 2 | check the record as it will be stored, merging request fields over the stored ones, as the docstring ("the subcategory belongs to the selected category") says | medium, not executed | Serializers.PartialUpdateEscapesValidate | Serializers.ValidateUpdateKeepsRecordConsistent |
