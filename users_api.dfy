/** The REST client for users (src/pages/users/api/usersApi.ts): the DTO conversion, the
    request each endpoint sends, the authorization header, the cache tags, and the
    optimistic patch-and-undo that `updateUser` and `deleteUser` apply to cached user lists. */
module UsersApi {
  import opened Wrappers
  import opened JsNumber
  import opened Text
  import opened UsersTypes

  /** `toDto`: the five input fields, with each role replaced by its id. */
  function ToDto(d: UserInput<seq<Role>>): (r: UserInputDto)
    ensures r.id == d.id && r.name == d.name && r.email == d.email && r.version == d.version
    ensures |r.role| == |d.role|
    ensures forall i :: 0 <= i < |d.role| ==> r.role[i] == d.role[i].id
  {
    UserInput(d.id, d.name, d.email, RoleIds(d.role), d.version)
  }

  // ---------------------------------------------------------------- requests

  /** The fields of the `getAllUsers` argument, a Redux `PayloadAction`. */
  datatype PageArgs = PageArgs(page: Num, pageSize: Num, sort: string, direction: string)
  datatype PayloadAction = PayloadAction(payload: PageArgs, actionType: string)

  datatype HttpMethod = Get | Post | Put | Delete
  datatype Request = Request(verb: HttpMethod, url: string, body: Option<UserInputDto>)

  /** `${id}` for an id that may be undefined. */
  function IdText(id: Option<string>): (r: string)
    ensures id.Some? ==> r == id.value
    ensures id.None? ==> r == "undefined"
  {
    if id.Some? then id.value else "undefined"
  }

  /** The `getAllUsers` path: the four payload fields written into the query verbatim. */
  function AllUsersPath(arg: PayloadAction): (r: string)
    ensures |r| >= 12 && r[..12] == "/users?page="
    ensures |r| >= |arg.payload.direction| && r[|r| - |arg.payload.direction|..] == arg.payload.direction
  {
    "/users?page=" + Render(arg.payload.page) + "&size=" + Render(arg.payload.pageSize)
      + "&sort=" + arg.payload.sort + "&direction=" + arg.payload.direction
  }

  /** A single-user path, `/users/<id>`. */
  function UserPath(id: string): (r: string)
    ensures |r| == 7 + |id| && r[..7] == "/users/" && r[7..] == id
  {
    "/users/" + id
  }

  /** Rendered numbers never hold the query separator. */
  lemma RenderHasNoAmpersand(x: Num)
    ensures '&' !in Render(x)
  {
    match x
    case NaN =>
    case Int(i) =>
      var d := Digits(if i < 0 then -i else i);
      assert IsDigit(d[0]);
      if i < 0 {
        assert Render(x) == "-" + d;
        assert forall c :: c in d ==> IsDigit(c);
      } else {
        assert forall c :: c in d ==> IsDigit(c);
      }
  }

  /** The four `key=value` fields of the list query, in the order they are written. */
  function QueryFields(p: PageArgs): seq<string>
  {
    ["page=" + Render(p.page), "size=" + Render(p.pageSize), "sort=" + p.sort, "direction=" + p.direction]
  }

  lemma TemplateIsJoin(r1: string, r2: string, sort: string, direction: string)
    ensures "/users?page=" + r1 + "&size=" + r2 + "&sort=" + sort + "&direction=" + direction
      == "/users?" + Join(["page=" + r1, "size=" + r2, "sort=" + sort, "direction=" + direction], "&")
  {
    Join4("page=" + r1, "size=" + r2, "sort=" + sort, "direction=" + direction, "&");
    assert "/users?page=" == "/users?" + "page=";
    assert "&size=" == "&" + "size=";
    assert "&sort=" == "&" + "sort=";
    assert "&direction=" == "&" + "direction=";
  }

  lemma AllUsersPathIsJoin(arg: PayloadAction)
    ensures AllUsersPath(arg) == "/users?" + Join(QueryFields(arg.payload), "&")
  {
    TemplateIsJoin(Render(arg.payload.page), Render(arg.payload.pageSize), arg.payload.sort, arg.payload.direction);
  }

  /** The list query string reads back as its four `key=value` fields, in the order
      page, size, sort, direction, as long as sort and direction hold no '&'. */
  lemma AllUsersPathFields(arg: PayloadAction)
    requires '&' !in arg.payload.sort && '&' !in arg.payload.direction
    ensures |AllUsersPath(arg)| >= 7 && AllUsersPath(arg)[..7] == "/users?"
    ensures Split(AllUsersPath(arg)[7..], '&') == QueryFields(arg.payload)
  {
    var parts := QueryFields(arg.payload);
    RenderHasNoAmpersand(arg.payload.page);
    RenderHasNoAmpersand(arg.payload.pageSize);
    assert forall i :: 0 <= i < |parts| ==> '&' !in parts[i] by {
      assert '&' !in "page=" && '&' !in "size=" && '&' !in "sort=" && '&' !in "direction=";
    }
    AllUsersPathIsJoin(arg);
    assert AllUsersPath(arg)[7..] == Join(parts, "&");
    SplitJoin(parts, '&');
  }

  /** The request each query sends (usersApi.ts:41, 45, 49-52). */
  function QueryRequest(k: QueryKey): (r: Request)
    ensures r.verb == Get && r.body == None
    ensures k.AllUsersKey? ==> r.url == AllUsersPath(k.arg)
    ensures k.UsersSizeKey? ==> r.url == "/usersCount"
    ensures k.UserKey? ==> r.url == UserPath(k.id)
  {
    match k
    case AllUsersKey(arg) => Request(Get, AllUsersPath(arg), None)
    case UsersSizeKey => Request(Get, "/usersCount", None)
    case UserKey(id) => Request(Get, UserPath(id), None)
  }

  // ---------------------------------------------------------------- headers

  /** A `Headers` object; names are kept in the lower case that `Headers` stores. */
  class Headers {
    var entries: map<string, string>

    constructor (init: map<string, string>)
      ensures entries == init
    {
      entries := init;
    }

    method Set(name: string, value: string)
      modifies this
      ensures entries == old(entries)[name := value]
    {
      entries := entries[name := value];
    }
  }

  /** A JavaScript value is truthy when defined and, for a string, non-empty. */
  predicate Truthy(token: Option<string>)
    ensures Truthy(token) <==> token.Some? && |token.value| > 0
  {
    token.Some? && token.value != ""
  }

  /** `prepareHeaders`: sets `authorization: Bearer <token>` when the token is truthy and
      returns the same headers object; otherwise leaves it as it was. */
  method PrepareHeaders(headers: Headers, token: Option<string>) returns (r: Headers)
    modifies headers
    ensures r == headers
    ensures Truthy(token) ==> headers.entries == old(headers.entries)["authorization" := "Bearer " + token.value]
    ensures !Truthy(token) ==> headers.entries == old(headers.entries)
  {
    if Truthy(token) {
      headers.Set("authorization", "Bearer " + token.value);
    }
    r := headers;
  }

  // ---------------------------------------------------------------- tags

  datatype Tag = UsersTag | UsersCountTag
  datatype Endpoint = GetAllUsers | GetUsersSize | GetUser
  datatype MutationKind = CreateUser | UpdateUser | DeleteUser

  /** `providesTags` of each query; `getUser` declares none. */
  function Provides(e: Endpoint): (r: set<Tag>)
    ensures |r| <= 1
    ensures UsersTag in r <==> e == GetAllUsers
    ensures UsersCountTag in r <==> e == GetUsersSize
  {
    match e
    case GetAllUsers => {UsersTag}
    case GetUsersSize => {UsersCountTag}
    case GetUser => {}
  }

  /** `invalidatesTags` of each mutation. */
  function Invalidates(m: MutationKind): (r: set<Tag>)
    ensures r == {UsersTag, UsersCountTag}
  {
    match m
    case CreateUser => {UsersTag, UsersCountTag}
    case UpdateUser => {UsersTag, UsersCountTag}
    case DeleteUser => {UsersTag, UsersCountTag}
  }

  /** Every mutation invalidates the list and the count, and nothing invalidates a cached
      single user. */
  lemma MutationsInvalidateListsAndCount(m: MutationKind)
    ensures Provides(GetAllUsers) + Provides(GetUsersSize) <= Invalidates(m)
    ensures Provides(GetUser) * Invalidates(m) == {}
  {
  }

  // ---------------------------------------------------------------- cache

  /** A cached query: its endpoint and the argument it was called with. */
  datatype QueryKey = AllUsersKey(arg: PayloadAction) | UsersSizeKey | UserKey(id: string)

  datatype CacheValue = UserList(users: seq<User>) | Count(n: int) | OneUser(user: User)

  type CacheEntries = map<QueryKey, CacheValue>

  function EndpointOf(k: QueryKey): Endpoint
  {
    match k
    case AllUsersKey(_) => GetAllUsers
    case UsersSizeKey => GetUsersSize
    case UserKey(_) => GetUser
  }

  /** `selectInvalidatedBy(state, [{ type: tag }])`: the cached queries providing `tag`. */
  function InvalidatedBy(entries: CacheEntries, tag: Tag): (r: set<QueryKey>)
    ensures r <= entries.Keys
    ensures forall k :: k in entries ==> (k in r <==> tag in Provides(EndpointOf(k)))
    ensures tag == UsersTag ==> forall k :: k in r ==> k.AllUsersKey?
  {
    set k | k in entries && tag in Provides(EndpointOf(k))
  }

  /** The `updateUser` record transform (usersApi.ts:77-83): a record whose `_id` equals the
      argument's takes its name, email and role; every other field, and every other record,
      stays. Two undefined ids are equal. */
  function UpdateRecord(e: User, arg: UserInput<seq<Role>>): (r: User)
    ensures r.id == e.id && r.version == e.version
    ensures r.createdBy == e.createdBy && r.createdDate == e.createdDate
    ensures r.modifiedBy == e.modifiedBy && r.modifiedDate == e.modifiedDate
    ensures e.id == arg.id ==> r.name == arg.name && r.email == arg.email && r.role == arg.role
    ensures e.id != arg.id ==> r == e
  {
    if e.id == arg.id then e.(name := arg.name, email := arg.email, role := arg.role) else e
  }

  /** `draft.map(...)` with the transform above. */
  function UpdateRecords(list: seq<User>, arg: UserInput<seq<Role>>): (r: seq<User>)
    ensures |r| == |list|
    ensures forall i :: 0 <= i < |list| ==> r[i] == UpdateRecord(list[i], arg)
  {
    if |list| == 0 then [] else [UpdateRecord(list[0], arg)] + UpdateRecords(list[1..], arg)
  }

  /** `draft.filter((e) => e._id !== data)`. */
  function DeleteRecords(list: seq<User>, target: Option<string>): (r: seq<User>)
    ensures forall x :: x in r <==> x in list && x.id != target
    ensures |r| <= |list|
  {
    if |list| == 0 then []
    else if list[0].id != target then [list[0]] + DeleteRecords(list[1..], target)
    else DeleteRecords(list[1..], target)
  }

  /** Deleting keeps the relative order: it works on each part of a list separately. */
  lemma {:induction false} DeleteRecordsAppend(a: seq<User>, b: seq<User>, target: Option<string>)
    ensures DeleteRecords(a + b, target) == DeleteRecords(a, target) + DeleteRecords(b, target)
  {
    if |a| == 0 {
      assert a + b == b;
    } else {
      assert (a + b)[0] == a[0] && (a + b)[1..] == a[1..] + b;
      DeleteRecordsAppend(a[1..], b, target);
    }
  }

  /** A list that holds no record with the id is left as it is. */
  lemma {:induction false} DeleteRecordsAbsent(list: seq<User>, target: Option<string>)
    requires forall i :: 0 <= i < |list| ==> list[i].id != target
    ensures DeleteRecords(list, target) == list
  {
    if |list| > 0 {
      DeleteRecordsAbsent(list[1..], target);
      assert [list[0]] + list[1..] == list;
    }
  }

  /** The update patch changes nothing more when applied a second time. */
  lemma UpdateRecordsIdempotent(list: seq<User>, arg: UserInput<seq<Role>>)
    ensures UpdateRecords(UpdateRecords(list, arg), arg) == UpdateRecords(list, arg)
  {
  }

  /** One optimistic patch, as a value: the command `onQueryStarted` dispatches. */
  datatype Patch = UpdatePatch(arg: UserInput<seq<Role>>) | DeletePatch(target: Option<string>)

  function ApplyToList(p: Patch, list: seq<User>): (r: seq<User>)
    ensures p.UpdatePatch? ==> |r| == |list| && forall i :: 0 <= i < |list| ==> r[i] == UpdateRecord(list[i], p.arg)
    ensures p.DeletePatch? ==> forall x :: x in r <==> x in list && x.id != p.target
  {
    match p
    case UpdatePatch(arg) => UpdateRecords(list, arg)
    case DeletePatch(target) => DeleteRecords(list, target)
  }

  /** `updateQueryData` on one entry: a cached list is transformed; anything else stays. */
  function Patched(v: CacheValue, p: Patch): CacheValue
  {
    if v.UserList? then UserList(ApplyToList(p, v.users)) else v
  }

  /** The undo a patch hands back: the entry and the value it held before. */
  datatype Undo = Undo(key: QueryKey, before: CacheValue)

  /** Patch one entry and keep its undo. */
  function PatchEntry(entries: CacheEntries, k: QueryKey, p: Patch): (r: (CacheEntries, Undo))
    requires k in entries
    ensures r.0.Keys == entries.Keys
    ensures r.0[k] == Patched(entries[k], p)
    ensures forall j :: j in entries && j != k ==> r.0[j] == entries[j]
    ensures r.1 == Undo(k, entries[k])
  {
    (entries[k := Patched(entries[k], p)], Undo(k, entries[k]))
  }

  /** `patchResult.undo()`. */
  function RunUndo(entries: CacheEntries, u: Undo): (r: CacheEntries)
    ensures r.Keys == entries.Keys + {u.key}
    ensures r[u.key] == u.before
    ensures forall j :: j in entries && j != u.key ==> r[j] == entries[j]
  {
    entries[u.key := u.before]
  }

  /** Undoing a patch right after it restores the cache exactly. */
  lemma UndoRestores(entries: CacheEntries, k: QueryKey, p: Patch)
    requires k in entries
    ensures RunUndo(PatchEntry(entries, k, p).0, PatchEntry(entries, k, p).1) == entries
  {
  }

  /** The cache after patching the cached `getAllUsers` entries among `ks`. */
  function PatchKeys(entries: CacheEntries, p: Patch, ks: set<QueryKey>): CacheEntries
  {
    map k | k in entries :: if k in ks && EndpointOf(k) == GetAllUsers then Patched(entries[k], p) else entries[k]
  }

  /** Patching no entry leaves the cache as it is. */
  lemma PatchKeysNone(entries: CacheEntries, p: Patch)
    ensures PatchKeys(entries, p, {}) == entries
  {
  }

  /** Handling one more key of the loop in `QueryCache.Optimistic`. */
  lemma PatchKeysStep(orig: CacheEntries, p: Patch, done: set<QueryKey>, k: QueryKey)
    requires k in orig && k !in done
    ensures EndpointOf(k) == GetAllUsers ==>
      PatchKeys(orig, p, done)[k := Patched(PatchKeys(orig, p, done)[k], p)] == PatchKeys(orig, p, done + {k})
    ensures EndpointOf(k) != GetAllUsers ==> PatchKeys(orig, p, done) == PatchKeys(orig, p, done + {k})
  {
  }

  /** The cache after a successful optimistic mutation of the user lists. */
  function PatchAll(entries: CacheEntries, p: Patch): (r: CacheEntries)
    ensures r.Keys == entries.Keys
    ensures forall k :: k in entries && k.AllUsersKey? ==> r[k] == Patched(entries[k], p)
  {
    PatchKeys(entries, p, InvalidatedBy(entries, UsersTag))
  }

  /** Patching touches only cached user lists: the same queries stay cached, the count and
      single-user entries are unchanged, and every list is transformed by the patch. */
  lemma PatchAllFrame(entries: CacheEntries, p: Patch, k: QueryKey)
    ensures PatchAll(entries, p).Keys == entries.Keys
    ensures k in entries && !k.AllUsersKey? ==> PatchAll(entries, p)[k] == entries[k]
    ensures k in entries && k.AllUsersKey? ==> PatchAll(entries, p)[k] == Patched(entries[k], p)
  {
  }

  /** A delete leaves a cached page that does not hold the user exactly as it was. */
  lemma DeleteSkipsPagesWithoutUser(entries: CacheEntries, target: Option<string>, k: QueryKey)
    requires k in entries && entries[k].UserList?
    requires forall i :: 0 <= i < |entries[k].users| ==> entries[k].users[i].id != target
    ensures PatchAll(entries, DeletePatch(target))[k] == entries[k]
  {
    DeleteRecordsAbsent(entries[k].users, target);
  }

  /** The query cache and the three mutations. `fulfilled` is the outcome of the request
      (`await queryFulfilled`), known to the model when the mutation starts. */
  class QueryCache {
    var entries: CacheEntries

    constructor (init: CacheEntries)
      ensures entries == init
    {
      entries := init;
    }

    /** `onQueryStarted` (usersApi.ts:71-91, 101-113): for each cached query providing
        'users' that belongs to `getAllUsers`, apply the patch and, if the request fails,
        run its undo. */
    method Optimistic(p: Patch, fulfilled: bool)
      modifies this
      ensures entries == if fulfilled then PatchAll(old(entries), p) else old(entries)
    {
      ghost var orig := entries;
      var todo := InvalidatedBy(entries, UsersTag);
      ghost var all := todo;
      ghost var done: set<QueryKey> := {};
      ghost var applied: set<QueryKey> := {};
      PatchKeysNone(entries, p);
      while todo != {}
        invariant all == InvalidatedBy(orig, UsersTag) && all <= orig.Keys
        invariant todo <= all && done == all - todo
        invariant applied == if fulfilled then done else {}
        invariant entries == PatchKeys(orig, p, applied)
        decreases |todo|
      {
        var k :| k in todo;
        assert k in orig && k !in done;
        assert k in entries;
        todo := todo - {k};
        if EndpointOf(k) == GetAllUsers {
          PatchOne(k, p, fulfilled);
        }
        if fulfilled {
          PatchKeysStep(orig, p, done, k);
          applied := applied + {k};
        }
        done := done + {k};
      }
      assert done == all;
    }

    /** One round of the loop on a `getAllUsers` entry: dispatch the patch, await the
        request, and undo the patch if the request failed. */
    method PatchOne(k: QueryKey, p: Patch, fulfilled: bool)
      requires k in entries
      modifies this
      ensures entries == if fulfilled then old(entries)[k := Patched(old(entries)[k], p)] else old(entries)
    {
      var (patched, undo) := PatchEntry(entries, k, p);
      entries := patched;
      if !fulfilled {
        entries := RunUndo(entries, undo);
      }
    }

    /** `createUser`: POST of the DTO. It has no `onQueryStarted`, so the cache is not
        touched before the server answers (this method modifies nothing). */
    method CreateUserRequest(data: UserInput<seq<Role>>) returns (req: Request)
      ensures req.verb == Post && req.url == "/users" && req.body == Some(ToDto(data))
    {
      req := Request(Post, "/users", Some(ToDto(data)));
    }

    /** `updateUser`: PUT to `/users/<_id>` and the optimistic update patch. */
    method UpdateUserMutation(data: UserInput<seq<Role>>, fulfilled: bool) returns (req: Request)
      modifies this
      ensures req == Request(Put, UserPath(IdText(data.id)), Some(ToDto(data)))
      ensures entries == if fulfilled then PatchAll(old(entries), UpdatePatch(data)) else old(entries)
    {
      req := Request(Put, UserPath(IdText(data.id)), Some(ToDto(data)));
      Optimistic(UpdatePatch(data), fulfilled);
    }

    /** `deleteUser`: DELETE of `/users/<id>` and the optimistic removal. */
    method DeleteUserMutation(target: Option<string>, fulfilled: bool) returns (req: Request)
      modifies this
      ensures req == Request(Delete, UserPath(IdText(target)), None)
      ensures entries == if fulfilled then PatchAll(old(entries), DeletePatch(target)) else old(entries)
    {
      req := Request(Delete, UserPath(IdText(target)), None);
      Optimistic(DeletePatch(target), fulfilled);
    }
  }
}
