/** The users page (src/pages/users/Users.tsx): how the page reads its paging and sorting
    from the URL's search parameters, writes them back, and builds the list query. */
module UsersPage {
  import opened Wrappers
  import opened JsNumber
  import opened Text
  import opened Assoc
  import opened UsersTypes
  import opened UsersApi

  /** `UsersSearchParams`. */
  datatype SearchParams = SearchParams(page: Num, size: Num, sort: string, desc: bool)

  /** The string record `toString` returns. */
  datatype ParamStrings = ParamStrings(page: string, size: string, sort: string, desc: string)

  /** The table's `PaginationState` and one `ColumnSort` of its `SortingState`. */
  datatype PaginationState = PaginationState(pageIndex: Num, pageSize: Num)
  datatype ColumnSort = ColumnSort(id: string, desc: bool)

  /** `${b}` for a boolean. */
  function BoolText(b: bool): string
  {
    if b then "true" else "false"
  }

  /** `toString` (Users.tsx:24-31): page and size in decimal, sort as it is, desc as
      'true' or 'false'. */
  function ToStrings(p: SearchParams): (r: ParamStrings)
    ensures ParseInt(r.page) == p.page && ParseInt(r.size) == p.size
    ensures r.sort == p.sort
    ensures r.desc == "true" <==> p.desc
  {
    ParseRender(p.page);
    ParseRender(p.size);
    ParamStrings(Render(p.page), Render(p.size), p.sort, BoolText(p.desc))
  }

  /** `getSearchParams` (Users.tsx:44-51): each absent key takes its default (page 0,
      size 5, sort '_id', desc false); page and size go through `parseInt`; desc holds
      only when the stored value is exactly 'true'. */
  function GetSearchParams(q: Entries): (r: SearchParams)
    ensures r.page == (if Lookup(q, "page").Some? then ParseInt(Lookup(q, "page").value) else Int(0))
    ensures r.size == (if Lookup(q, "size").Some? then ParseInt(Lookup(q, "size").value) else Int(5))
    ensures r.sort == (if Lookup(q, "sort").Some? then Lookup(q, "sort").value else "_id")
    ensures r.desc <==> Lookup(q, "desc") == Some("true")
  {
    var page := Lookup(q, "page");
    var size := Lookup(q, "size");
    var sort := Lookup(q, "sort");
    var desc := Lookup(q, "desc");
    SearchParams(
      if page.Some? then ParseInt(page.value) else Int(0),
      if size.Some? then ParseInt(size.value) else Int(5),
      if sort.Some? then sort.value else "_id",
      if desc.Some? then desc.value == "true" else false)
  }

  /** `createSearchParams` (Users.tsx:53-60). `sorting[0]` on an empty sorting state
      throws; that is None here. */
  function CreateSearchParams(pagination: PaginationState, sorting: seq<ColumnSort>): (r: Option<SearchParams>)
    ensures r.Some? <==> |sorting| > 0
    ensures r.Some? ==> r.value == SearchParams(pagination.pageIndex, pagination.pageSize, sorting[0].id, sorting[0].desc)
  {
    if |sorting| == 0 then None
    else Some(SearchParams(pagination.pageIndex, pagination.pageSize, sorting[0].id, sorting[0].desc))
  }

  /** The updater passed to `setSearchParams` (Users.tsx:90-95): the previous entries
      collapsed into an object, then page, size, sort and desc assigned in that order. */
  function WriteParams(prev: Entries, p: SearchParams): (r: Entries)
    ensures Lookup(r, "page") == Some(ToStrings(p).page)
    ensures Lookup(r, "size") == Some(ToStrings(p).size)
    ensures Lookup(r, "sort") == Some(ToStrings(p).sort)
    ensures Lookup(r, "desc") == Some(ToStrings(p).desc)
  {
    var s := ToStrings(p);
    var q0 := FromEntries(prev);
    var q1 := Assign(q0, "page", s.page);
    var q2 := Assign(q1, "size", s.size);
    var q3 := Assign(q2, "sort", s.sort);
    AssignLookup(q3, "desc", s.desc, "desc");
    AssignLookup(q3, "desc", s.desc, "sort");
    AssignLookup(q2, "sort", s.sort, "sort");
    AssignLookup(q3, "desc", s.desc, "size");
    AssignLookup(q2, "sort", s.sort, "size");
    AssignLookup(q1, "size", s.size, "size");
    AssignLookup(q3, "desc", s.desc, "page");
    AssignLookup(q2, "sort", s.sort, "page");
    AssignLookup(q1, "size", s.size, "page");
    AssignLookup(q0, "page", s.page, "page");
    Assign(q3, "desc", s.desc)
  }

  /** Reading back what was written gives the same page, size, sort and desc, whatever
      the URL held before. */
  lemma ReadAfterWrite(prev: Entries, p: SearchParams)
    ensures GetSearchParams(WriteParams(prev, p)) == p
  {
    ParseRender(p.page);
    ParseRender(p.size);
  }

  /** Every other search key survives the write; where the URL held a key more than once,
      the LAST value is the one kept (`Object.fromEntries`). */
  lemma WriteKeepsOtherKeys(prev: Entries, p: SearchParams, k: string)
    requires k != "page" && k != "size" && k != "sort" && k != "desc"
    ensures Lookup(WriteParams(prev, p), k) == LastLookup(prev, k)
  {
    var s := ToStrings(p);
    var q0 := FromEntries(prev);
    var q1 := Assign(q0, "page", s.page);
    var q2 := Assign(q1, "size", s.size);
    var q3 := Assign(q2, "sort", s.sort);
    AssignLookup(q3, "desc", s.desc, k);
    AssignLookup(q2, "sort", s.sort, k);
    AssignLookup(q1, "size", s.size, k);
    AssignLookup(q0, "page", s.page, k);
    FromEntriesLookup(prev, k);
  }

  /** After the write, each key appears once. */
  lemma WriteHasDistinctKeys(prev: Entries, p: SearchParams)
    ensures DistinctKeys(WriteParams(prev, p))
  {
    var s := ToStrings(p);
    FromEntriesDistinct(prev);
    var q0 := FromEntries(prev);
    AssignDistinct(q0, "page", s.page);
    var q1 := Assign(q0, "page", s.page);
    AssignDistinct(q1, "size", s.size);
    var q2 := Assign(q1, "size", s.size);
    AssignDistinct(q2, "sort", s.sort);
    AssignDistinct(Assign(q2, "sort", s.sort), "desc", s.desc);
  }

  /** `buildPage` (Users.tsx:33-35): page index and size copied, the first sort column's id,
      and 'DESC' exactly when it is descending. An empty sorting state throws (None). */
  function BuildPage(pagination: PaginationState, sorting: seq<ColumnSort>): (r: Option<Page>)
    ensures r.Some? <==> |sorting| > 0
    ensures r.Some? ==> r.value.page == pagination.pageIndex && r.value.pageSize == pagination.pageSize
    ensures r.Some? ==> r.value.sort == sorting[0].id
    ensures r.Some? ==> (r.value.direction == "DESC" <==> sorting[0].desc)
    ensures r.Some? ==> (r.value.direction == "ASC" <==> !sorting[0].desc)
  {
    if |sorting| == 0 then None
    else Some(NewPage(Some(pagination.pageIndex), Some(pagination.pageSize), Some(sorting[0].id),
                      Some(if sorting[0].desc then "DESC" else "ASC")))
  }

  /** `toPayload` (Users.tsx:37-39): the page's four fields in an action of type ''. */
  function ToPayload(p: Page): (r: PayloadAction)
    ensures r.actionType == ""
    ensures r.payload.page == p.page && r.payload.pageSize == p.pageSize
    ensures r.payload.sort == p.sort && r.payload.direction == p.direction
  {
    PayloadAction(PageArgs(p.page, p.pageSize, p.sort, p.direction), "")
  }

  /** The list request the page sends for a table state: the query string carries the page
      index, the page size, the sort column and ASC/DESC. */
  lemma ListQueryOfTableState(pagination: PaginationState, sorting: seq<ColumnSort>)
    requires |sorting| > 0 && '&' !in sorting[0].id
    ensures var url := AllUsersPath(ToPayload(BuildPage(pagination, sorting).value));
      Split(url[7..], '&') == ["page=" + Render(pagination.pageIndex), "size=" + Render(pagination.pageSize),
                               "sort=" + sorting[0].id, "direction=" + (if sorting[0].desc then "DESC" else "ASC")]
  {
    var arg := ToPayload(BuildPage(pagination, sorting).value);
    assert '&' !in arg.payload.direction by {
      assert arg.payload.direction == "DESC" || arg.payload.direction == "ASC";
    }
    AllUsersPathFields(arg);
  }

  /** The two effects agree: writing the table state to the URL and reading it back gives
      the same pagination and a sorting state made of its first column. */
  lemma EffectsAgree(prev: Entries, pagination: PaginationState, sorting: seq<ColumnSort>)
    requires |sorting| > 0
    ensures var gp := GetSearchParams(WriteParams(prev, CreateSearchParams(pagination, sorting).value));
      PaginationState(gp.page, gp.size) == pagination && [ColumnSort(gp.sort, gp.desc)] == sorting[..1]
  {
    ReadAfterWrite(prev, CreateSearchParams(pagination, sorting).value);
  }

  /** The component's state: the URL's search parameters and the table's state. */
  class UsersView {
    var searchParams: Entries
    var pagination: PaginationState
    var sorting: seq<ColumnSort>

    /** First render (Users.tsx:61-72): both states are read from the URL. */
    constructor (initial: Entries)
      ensures searchParams == initial
      ensures pagination == PaginationState(GetSearchParams(initial).page, GetSearchParams(initial).size)
      ensures sorting == [ColumnSort(GetSearchParams(initial).sort, GetSearchParams(initial).desc)]
    {
      searchParams := initial;
      var gp := GetSearchParams(initial);
      pagination := PaginationState(gp.page, gp.size);
      sorting := [ColumnSort(gp.sort, gp.desc)];
    }

    /** The argument of `useGetAllUsersQuery` for the current state. */
    function QueryArg(): (r: Option<PayloadAction>)
      reads this
      ensures r.Some? <==> |sorting| > 0
      ensures r.Some? ==> r.value.payload.page == pagination.pageIndex && r.value.payload.pageSize == pagination.pageSize
      ensures r.Some? ==> r.value.payload.sort == sorting[0].id
      ensures r.Some? ==> (r.value.payload.direction == "DESC" <==> sorting[0].desc)
    {
      var page := BuildPage(pagination, sorting);
      if page.Some? then Some(ToPayload(page.value)) else None
    }

    /** The effect on `searchParams` (Users.tsx:81-85). */
    method SyncFromUrl()
      modifies this
      ensures searchParams == old(searchParams)
      ensures pagination == PaginationState(GetSearchParams(searchParams).page, GetSearchParams(searchParams).size)
      ensures sorting == [ColumnSort(GetSearchParams(searchParams).sort, GetSearchParams(searchParams).desc)]
    {
      var params := GetSearchParams(searchParams);
      pagination := PaginationState(params.page, params.size);
      sorting := [ColumnSort(params.sort, params.desc)];
    }

    /** The effect on `pagination` and `sorting` (Users.tsx:87-98); it throws, changing
        nothing, when the sorting state is empty. */
    method SyncToUrl() returns (thrown: bool)
      modifies this
      ensures thrown <==> |sorting| == 0
      ensures pagination == old(pagination) && sorting == old(sorting)
      ensures !thrown ==> searchParams == WriteParams(old(searchParams), CreateSearchParams(pagination, sorting).value)
      ensures thrown ==> searchParams == old(searchParams)
    {
      var params := CreateSearchParams(pagination, sorting);
      if params.None? {
        thrown := true;
        return;
      }
      thrown := false;
      searchParams := WriteParams(searchParams, params.value);
    }
  }
}
