/** The remote access layer (frontend/src/api.ts): query building, the filter projection,
    the requests each API entry point issues, and the classification of HTTP responses.
    The transport itself (`fetch`) is not modelled: a request is a value, a response an outcome. */
module Api {
  import opened Common
  import opened Types

  // ---------------------------------------------------------------------------------------
  // Query strings

  /** A parameter value as JavaScript holds it before `buildQuery` looks at it. */
  datatype QueryValue = Undefined | Null | Text(text: string) | Number(number: int)

  type Params = seq<(string, QueryValue)>

  /** `buildQuery` appends an entry unless its value is undefined, null or the empty string. */
  predicate IsSent(v: QueryValue) {
    !(v.Undefined? || v.Null? || v == Text(""))
  }

  /** `String(n)` for a natural number: its decimal digits, most significant first. */
  function NatText(n: nat): (s: string)
    ensures |s| > 0
  {
    var digit := "0123456789"[n % 10];
    if n < 10 then [digit] else NatText(n / 10) + [digit]
  }

  function DigitValue(c: char): nat {
    if '0' <= c <= '9' then (c as int - '0' as int) as nat else 0
  }

  /** The number a string of decimal digits denotes. */
  function DecimalValue(s: string): nat {
    if s == [] then 0 else DecimalValue(s[..|s| - 1]) * 10 + DigitValue(s[|s| - 1])
  }

  /** Reading the rendered digits back gives the number: the rendering loses nothing. */
  lemma {:induction false} NatTextRoundTrip(n: nat)
    ensures DecimalValue(NatText(n)) == n
  {
    var t := NatText(n);
    assert DigitValue("0123456789"[n % 10]) == n % 10;
    if n >= 10 {
      NatTextRoundTrip(n / 10);
      assert t[..|t| - 1] == NatText(n / 10);
    } else {
      assert t[..|t| - 1] == [];
    }
  }

  /** Distinct numbers render distinctly. */
  lemma NatTextInjective(m: nat, n: nat)
    ensures NatText(m) == NatText(n) <==> m == n
  {
    NatTextRoundTrip(m);
    NatTextRoundTrip(n);
  }

  /** `String(v)`. */
  function ValueText(v: QueryValue): string {
    match v
    case Undefined => "undefined"
    case Null => "null"
    case Text(t) => t
    case Number(n) => if n < 0 then "-" + NatText(-n) else NatText(n)
  }

  /** The pairs `buildQuery` appends to its `URLSearchParams`, in order. */
  function Appended(params: Params): seq<(string, string)> {
    if params == [] then []
    else
      (if IsSent(params[0].1) then [(params[0].0, ValueText(params[0].1))] else [])
      + Appended(params[1..])
  }

  /** `URLSearchParams.toString()` without percent-encoding: `k=v` pairs joined by `&`. */
  function Encoded(pairs: seq<(string, string)>): string {
    if pairs == [] then ""
    else
      var head := pairs[0].0 + "=" + pairs[0].1;
      if |pairs| == 1 then head else head + "&" + Encoded(pairs[1..])
  }

  /** What `buildQuery` returns: `''` or `'?'` followed by the encoded pairs. */
  function QueryString(params: Params): string {
    var qs := Encoded(Appended(params));
    if qs != "" then "?" + qs else ""
  }

  /** Appending is order-preserving: each entry is treated on its own, in input order. */
  lemma {:induction false} AppendedConcat(a: Params, b: Params)
    ensures Appended(a + b) == Appended(a) + Appended(b)
  {
    if a == [] {
      assert a + b == b;
    } else {
      var head := if IsSent(a[0].1) then [(a[0].0, ValueText(a[0].1))] else [];
      assert (a + b)[0] == a[0];
      assert (a + b)[1..] == a[1..] + b;
      assert Appended(a + b) == head + Appended(a[1..] + b);
      AppendedConcat(a[1..], b);
      assert Appended(a) == head + Appended(a[1..]);
    }
  }

  /** Exactly the entries with a sent value survive, and they keep their keys and order. */
  lemma {:induction false} AppendedKeepsSentEntries(params: Params)
    ensures |Appended(params)| <= |params|
    ensures (forall i :: 0 <= i < |params| ==> IsSent(params[i].1)) ==>
              Appended(params) == seq(|params|, i requires 0 <= i < |params| => (params[i].0, ValueText(params[i].1)))
    ensures (forall i :: 0 <= i < |params| ==> !IsSent(params[i].1)) ==> Appended(params) == []
  {
    if params != [] {
      AppendedKeepsSentEntries(params[1..]);
    }
  }

  lemma {:induction false} EncodedEmptyOnlyForNoPairs(pairs: seq<(string, string)>)
    ensures Encoded(pairs) == "" <==> pairs == []
  {
    if pairs != [] {
      var head := pairs[0].0 + "=" + pairs[0].1;
      assert head[|pairs[0].0|] == '=';
    }
  }

  /** `buildQuery` yields `''` exactly when no entry survives, and otherwise a string that starts with `?`. */
  lemma QueryStringShape(params: Params)
    ensures QueryString(params) == "" <==> Appended(params) == []
    ensures QueryString(params) != "" ==> QueryString(params) == "?" + Encoded(Appended(params))
  {
    EncodedEmptyOnlyForNoPairs(Appended(params));
  }

  /** `buildQuery`, run as the source runs it: a loop appending to a mutable parameter list. */
  method BuildQuery(params: Params) returns (query: string)
    ensures query == QueryString(params)
  {
    var searchParams: seq<(string, string)> := [];
    var i := 0;
    while i < |params|
      invariant 0 <= i <= |params|
      invariant searchParams == Appended(params[..i])
    {
      var (k, v) := params[i];
      AppendedConcat(params[..i], [params[i]]);
      assert params[..i + 1] == params[..i] + [params[i]];
      if IsSent(v) {
        searchParams := searchParams + [(k, ValueText(v))];
      }
      i := i + 1;
    }
    assert params[..i] == params;
    var qs := Encoded(searchParams);
    query := if qs != "" then "?" + qs else "";
  }

  // ---------------------------------------------------------------------------------------
  // The cash-flow filter projection

  function IdParam(o: Option<ID>): QueryValue {
    if o.Some? then Number(o.value) else Undefined
  }

  function TextParam(o: Option<string>): QueryValue {
    if o.Some? then Text(o.value) else Undefined
  }

  function NumberParam(o: Option<int>): QueryValue {
    if o.Some? then Number(o.value) else Undefined
  }

  const ApiFilterKeys: seq<string> :=
    ["status", "cash_flow_type", "category", "subcategory", "created_at_after", "created_at_before", "page_size"]

  /** The filter field each key of `toApiFilters` reads. */
  const ApiFields: seq<FilterField> :=
    [StatusField, TypeField, CategoryField, SubcategoryField, AfterField, BeforeField, PageSizeField]

  /** A filter field's value as a parameter: an unset field is `undefined`. */
  function ParamOf(v: FieldValue): (r: QueryValue)
    ensures r.Undefined? <==> v.IsUnset()
  {
    match v
    case IdValue(o) => if o.Some? then Number(o.value) else Undefined
    case TextValue(o) => if o.Some? then Text(o.value) else Undefined
    case NumberValue(o) => if o.Some? then Number(o.value) else Undefined
  }

  /** `toApiFilters`: seven fixed keys, each holding the value of its own filter field;
      `ordering` and `page` are dropped. */
  function ToApiFilters(f: CashFlowFilters): (r: Params)
    ensures |r| == |ApiFilterKeys| == |ApiFields|
    ensures forall i :: 0 <= i < |r| ==> r[i] == (ApiFilterKeys[i], ParamOf(Get(f, ApiFields[i])))
    ensures OrderingField !in ApiFields && PageField !in ApiFields
  {
    [ ("status", IdParam(f.status)),
      ("cash_flow_type", IdParam(f.cashFlowType)),
      ("category", IdParam(f.category)),
      ("subcategory", IdParam(f.subcategory)),
      ("created_at_after", TextParam(f.createdAtAfter)),
      ("created_at_before", TextParam(f.createdAtBefore)),
      ("page_size", NumberParam(f.pageSize)) ]
  }

  /** The projection sees exactly the seven fields: two filters project alike iff they
      agree everywhere except `ordering` and `page`. */
  lemma ToApiFiltersSeesSevenFields(f: CashFlowFilters, g: CashFlowFilters)
    ensures ToApiFilters(f) == ToApiFilters(g) <==> AgreeOutside(f, g, {OrderingField, PageField})
  {
    if ToApiFilters(f) == ToApiFilters(g) {
      assert ToApiFilters(f)[0] == ToApiFilters(g)[0];
      assert ToApiFilters(f)[1] == ToApiFilters(g)[1];
      assert ToApiFilters(f)[2] == ToApiFilters(g)[2];
      assert ToApiFilters(f)[3] == ToApiFilters(g)[3];
      assert ToApiFilters(f)[4] == ToApiFilters(g)[4];
      assert ToApiFilters(f)[5] == ToApiFilters(g)[5];
      assert ToApiFilters(f)[6] == ToApiFilters(g)[6];
      forall field | field !in {OrderingField, PageField} ensures Get(f, field) == Get(g, field) {
      }
    }
    if AgreeOutside(f, g, {OrderingField, PageField}) {
      assert Get(f, StatusField) == Get(g, StatusField);
      assert Get(f, TypeField) == Get(g, TypeField);
      assert Get(f, CategoryField) == Get(g, CategoryField);
      assert Get(f, SubcategoryField) == Get(g, SubcategoryField);
      assert Get(f, AfterField) == Get(g, AfterField);
      assert Get(f, BeforeField) == Get(g, BeforeField);
      assert Get(f, PageSizeField) == Get(g, PageSizeField);
    }
  }

  /** A filter that sets nothing but the page size is sent as `?page_size=<n>`. */
  lemma OnlyPageSizeIsSent(f: CashFlowFilters, n: nat)
    requires f.status.None? && f.cashFlowType.None? && f.category.None? && f.subcategory.None?
    requires f.createdAtAfter.None? && f.createdAtBefore.None? && f.pageSize == Some(n)
    ensures QueryString(ToApiFilters(f)) == "?page_size=" + NatText(n)
  {
    var unset: Params := [("status", Undefined), ("cash_flow_type", Undefined), ("category", Undefined),
      ("subcategory", Undefined), ("created_at_after", Undefined), ("created_at_before", Undefined)];
    var last: Params := [("page_size", Number(n))];
    assert ToApiFilters(f) == unset + last;
    AppendedConcat(unset, last);
    AppendedKeepsSentEntries(unset);
    assert Appended(last) == [("page_size", NatText(n))];
    assert Encoded([("page_size", NatText(n))]) == "page_size=" + NatText(n);
  }

  // ---------------------------------------------------------------------------------------
  // Requests

  datatype HttpMethod = GET | POST | PATCH | DELETE

  /** `http` prefixes the configured base URL to a path; `httpAbsolute` uses a URL as given. */
  datatype Target = ApiPath(path: string) | AbsoluteUrl(url: string)

  datatype Body =
    | NoBody
    | NameBody(name: string)
    | CategoryBody(name: string, cashFlowType: ID)
    | SubcategoryBody(name: string, category: ID)
    | CashFlowBody(payload: CashFlowPayload)

  datatype Request = Request(verb: HttpMethod, target: Target, body: Body)

  /** The collections the client talks to. */
  datatype Collection = Dictionary(mode: DictMode) | CashFlows

  function CollectionPath(c: Collection): string {
    match c
    case Dictionary(Statuses) => "/statuses/"
    case Dictionary(CashFlowTypes) => "/cash_flow_types/"
    case Dictionary(Categories) => "/categories/"
    case Dictionary(Subcategories) => "/subcategories/"
    case CashFlows => "/cash_flows/"
  }

  function ItemPath(c: Collection, id: ID): string {
    CollectionPath(c) + NatText(id) + "/"
  }

  /** `getStatuses` / `getTypes` / `getCategories` / `getSubcategories`: the dropdown sources. */
  function DropdownRequest(mode: DictMode): Request {
    Request(GET, ApiPath(CollectionPath(Dictionary(mode)) + "?page_size=100"), NoBody)
  }

  /** The part of a dropdown response the dropdown sources hand on: `.then(d => d.results)`. */
  function Results<T>(response: Remote<Paginated<T>>): (r: Remote<seq<T>>)
    ensures r.Ok? <==> response.Ok?
    ensures r.Ok? ==> r.value == response.value.results
    ensures r.Failed? ==> r.message == response.message
  {
    match response
    case Ok(page) => Ok(page.results)
    case Failed(m) => Failed(m)
  }

  /** `listStatuses(params)` and its siblings. */
  function ListRequest(mode: DictMode, params: Params): Request {
    Request(GET, ApiPath(CollectionPath(Dictionary(mode)) + QueryString(params)), NoBody)
  }

  /** `get...ByUrl(url)`: a pagination link is followed verbatim. */
  function ByUrlRequest(url: string): Request {
    Request(GET, AbsoluteUrl(url), NoBody)
  }

  function CreateRequest(c: Collection, body: Body): Request {
    Request(POST, ApiPath(CollectionPath(c)), body)
  }

  function UpdateRequest(c: Collection, id: ID, body: Body): Request {
    Request(PATCH, ApiPath(ItemPath(c, id)), body)
  }

  function DeleteRequest(c: Collection, id: ID): Request {
    Request(DELETE, ApiPath(ItemPath(c, id)), NoBody)
  }

  /** `getCashFlows(filters)`: the first page of records matching the filter. */
  function CashFlowsRequest(f: CashFlowFilters): Request {
    Request(GET, ApiPath(CollectionPath(CashFlows) + QueryString(ToApiFilters(f))), NoBody)
  }

  /** An item path, and so a delete or an update, names exactly the record it was built for. */
  lemma ItemPathNamesTheRecord(c: Collection, a: ID, b: ID, body: Body)
    ensures ItemPath(c, a) == ItemPath(c, b) <==> a == b
    ensures DeleteRequest(c, a) == DeleteRequest(c, b) <==> a == b
    ensures UpdateRequest(c, a, body) == UpdateRequest(c, b, body) <==> a == b
  {
    if ItemPath(c, a) == ItemPath(c, b) {
      var prefix := CollectionPath(c);
      var pa, pb := ItemPath(c, a), ItemPath(c, b);
      assert pa[|prefix|..|pa| - 1] == NatText(a);
      assert pb[|prefix|..|pb| - 1] == NatText(b);
      NatTextInjective(a, b);
    }
  }

  /** The dropdown sources ask for `page_size=100`, the same string `buildQuery` would produce. */
  lemma DropdownQueryIsBuildQuery(mode: DictMode)
    ensures DropdownRequest(mode) == ListRequest(mode, [("page_size", Number(100))])
  {
    var params: Params := [("page_size", Number(100))];
    assert NatText(100) == "100" by {
      assert NatText(1) == "1";
      assert NatText(10) == "10";
    }
    assert params[1..] == [];
    assert Appended(params) == [("page_size", "100")];
    assert Encoded(Appended(params)) == "page_size=100";
    assert QueryString(params) == "?page_size=100";
  }

  // ---------------------------------------------------------------------------------------
  // Response classification in `http`

  /** `res.ok`: a 2xx status. */
  predicate IsOkStatus(status: nat) {
    200 <= status <= 299
  }

  /** What `http` does with a response: throw, return undefined, or parse the body as JSON. */
  datatype HttpOutcome = Thrown(message: string) | ReturnsUndefined | ParsesJson

  /** `bodyText` is `None` when reading the body failed (then `''` is used). */
  function Classify(status: nat, bodyText: Option<string>): (r: HttpOutcome)
    ensures r.Thrown? <==> !IsOkStatus(status)
    ensures r.Thrown? ==> r.message == "HTTP " + NatText(status) + ": " + (if bodyText.Some? then bodyText.value else "")
    ensures r.ReturnsUndefined? <==> status == 204
    ensures r.ParsesJson? <==> IsOkStatus(status) && status != 204
  {
    if !IsOkStatus(status) then
      var text := if bodyText.Some? then bodyText.value else "";
      Thrown("HTTP " + NatText(status) + ": " + text)
    else if status == 204 then ReturnsUndefined
    else ParsesJson
  }
}
