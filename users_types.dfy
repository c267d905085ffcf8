/** The records exchanged with the user service (src/pages/users/api/usersApi.types.ts). */
module UsersTypes {
  import opened Wrappers
  import opened JsNumber

  /** A role. `_id` and the audit fields may be undefined; `description` is typed as a
      string but is undefined on roles built from GraphQL permissions, so it is optional here. */
  datatype Role = Role(
    id: Option<string>,
    name: string,
    description: Option<string>,
    version: Option<int>,
    createdBy: Option<string>,
    createdDate: Option<string>,
    modifiedBy: Option<string>,
    modifiedDate: Option<string>)

  /** A user as the service returns it. */
  datatype User = User(
    id: Option<string>,
    name: string,
    email: string,
    role: seq<Role>,
    version: Option<int>,
    createdBy: Option<string>,
    createdDate: Option<string>,
    modifiedBy: Option<string>,
    modifiedDate: Option<string>)

  /** `UserInput<T>`: exactly the five fields a user form submits; `T` is the role list type. */
  datatype UserInput<T> = UserInput(
    id: Option<string>,
    name: string,
    email: string,
    role: T,
    version: Option<int>)

  /** `UserInputDto = UserInput<string[]>`. The ids come from `r._id!`, a compile-time
      assertion only, so an undefined role id stays undefined in the list. */
  type UserInputDto = UserInput<seq<Option<string>>>

  /** `roles.map((r) => r._id!)`: the role ids in list order. */
  function RoleIds(roles: seq<Role>): (ids: seq<Option<string>>)
    ensures |ids| == |roles|
    ensures forall i :: 0 <= i < |roles| ==> ids[i] == roles[i].id
  {
    if |roles| == 0 then [] else [roles[0].id] + RoleIds(roles[1..])
  }

  /** `Page`: the four fields of a page request. */
  datatype Page = Page(page: Num, pageSize: Num, sort: string, direction: string)

  /** `new Page(page, pageSize, sort, direction)`: an argument passed as undefined (None)
      takes its default 0, 10, 'id' or 'ASC'; any other argument is stored as given. */
  function NewPage(page: Option<Num>, pageSize: Option<Num>, sort: Option<string>, direction: Option<string>): (p: Page)
    ensures p.page == (if page.Some? then page.value else Int(0))
    ensures p.pageSize == (if pageSize.Some? then pageSize.value else Int(10))
    ensures p.sort == (if sort.Some? then sort.value else "id")
    ensures p.direction == (if direction.Some? then direction.value else "ASC")
  {
    Page(page.GetOr(Int(0)), pageSize.GetOr(Int(10)), sort.GetOr("id"), direction.GetOr("ASC"))
  }
}
