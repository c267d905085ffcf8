/** The role list hook (src/pages/users/hooks/useRolesGraphql.tsx): the permissions query,
    the permission-to-role mapping, and the effect that stores the roles and whose cleanup
    clears them. */
module RolesGraphql {
  import opened Wrappers
  import opened JsNumber
  import opened UsersTypes

  /** A permission as the query selects it (`id` and `name`). */
  datatype Permission = Permission(id: string, name: string)

  /** The query's `data`: `getAllPermissions` may be null. */
  datatype PermissionsData = PermissionsData(getAllPermissions: Option<seq<Permission>>)

  /** What `useQuery` hands to a render. */
  datatype QueryResult = QueryResult(loading: bool, error: Option<string>, data: Option<PermissionsData>)

  /** The query's variables (useRolesGraphql.tsx:20-27), fixed for every render. */
  const Variables: Page := Page(Int(0), Int(10), "id", "ASC")

  /** The fixed variables are exactly what `new Page()` builds with no arguments. */
  lemma VariablesAreDefaultPage()
    ensures Variables == NewPage(None, None, None, None)
  {
  }

  /** The `map` at useRolesGraphql.tsx:30-35: each permission becomes a role with its id
      and name, in the same order; the cast leaves every other field undefined. */
  function RolesOf(ps: seq<Permission>): (roles: seq<Role>)
    ensures |roles| == |ps|
    ensures forall i :: 0 <= i < |ps| ==> roles[i] == Role(Some(ps[i].id), ps[i].name, None, None, None, None, None, None)
  {
    if |ps| == 0 then [] else [Role(Some(ps[0].id), ps[0].name, None, None, None, None, None, None)] + RolesOf(ps[1..])
  }

  /** Distinct permission ids give roles with distinct, defined ids. */
  lemma RolesOfDistinct(ps: seq<Permission>)
    requires forall i, j :: 0 <= i < j < |ps| ==> ps[i].id != ps[j].id
    ensures forall i :: 0 <= i < |RolesOf(ps)| ==> RolesOf(ps)[i].id.Some?
    ensures forall i, j :: 0 <= i < j < |RolesOf(ps)| ==> RolesOf(ps)[i].id != RolesOf(ps)[j].id
  {
  }

  /** `getRoles` (useRolesGraphql.tsx:29-37): the mapped list, or None when
      `getAllPermissions` is null, where spreading the undefined result throws. */
  function GetRoles(data: PermissionsData): (r: Option<seq<Role>>)
    ensures r.Some? <==> data.getAllPermissions.Some?
    ensures r.Some? ==> r.value == RolesOf(data.getAllPermissions.value)
  {
    if data.getAllPermissions.Some? then Some(RolesOf(data.getAllPermissions.value)) else None
  }

  /** The guard at useRolesGraphql.tsx:40: the roles the render saw are unset, the query
      is not loading, there is no error and data is present. */
  predicate ShouldPopulate(rendered: Option<seq<Role>>, q: QueryResult)
  {
    rendered.None? && !q.loading && q.error.None? && q.data.Some?
  }

  /** What an effect run leaves behind. */
  datatype Outcome = Outcome(roles: Option<seq<Role>>, thrown: bool)

  /** One run of the effect after the query result changed: the previous run's cleanup (if
      there was one) clears the roles, then the effect, reading the roles of the render that
      created it, populates them when the guard holds. */
  function EffectRun(rendered: Option<seq<Role>>, hadCleanup: bool, q: QueryResult): (o: Outcome)
    ensures o.thrown <==> ShouldPopulate(rendered, q) && q.data.value.getAllPermissions.None?
    ensures ShouldPopulate(rendered, q) && !o.thrown ==> o.roles == Some(RolesOf(q.data.value.getAllPermissions.value))
    ensures !ShouldPopulate(rendered, q) || o.thrown ==> o.roles == if hadCleanup then None else rendered
  {
    var cleared := if hadCleanup then None else rendered;
    if ShouldPopulate(rendered, q) then
      var r := GetRoles(q.data.value);
      if r.Some? then Outcome(r, false) else Outcome(cleared, true)
    else Outcome(cleared, false)
  }

  /** The effect's state: the roles held and the query result of the last render, if any. */
  class RolesHook {
    var roles: Option<seq<Role>>
    var deps: Option<QueryResult>

    /** `useState<Role[]>()`: no roles before the first render. */
    constructor ()
      ensures roles == None && deps == None
    {
      roles := None;
      deps := None;
    }

    /** A render with query result `q`: the effect runs on the first render and whenever
        `data`, `loading` or `error` differ from the previous render's. */
    method Render(q: QueryResult) returns (thrown: bool)
      modifies this
      ensures deps == Some(q)
      ensures old(deps) == Some(q) ==> roles == old(roles) && !thrown
      ensures old(deps) != Some(q) ==> Outcome(roles, thrown) == EffectRun(old(roles), old(deps).Some?, q)
    {
      if deps == Some(q) {
        thrown := false;
        return;
      }
      var rendered := roles;
      if deps.Some? {
        roles := None;
      }
      thrown := false;
      if ShouldPopulate(rendered, q) {
        var r := GetRoles(q.data.value);
        if r.Some? {
          roles := r;
        } else {
          thrown := true;
        }
      }
      deps := Some(q);
    }

    /** Unmounting runs the last cleanup. */
    method Unmount()
      modifies this
      ensures roles == None && deps == old(deps)
    {
      roles := None;
    }
  }

  /** Mounting while the query loads and then receiving its data stores the mapped roles. */
  lemma LoadThenData(loading: QueryResult, ready: QueryResult, ps: seq<Permission>)
    requires loading.loading
    requires ready == QueryResult(false, None, Some(PermissionsData(Some(ps))))
    ensures EffectRun(None, false, loading) == Outcome(None, false)
    ensures EffectRun(EffectRun(None, false, loading).roles, true, ready) == Outcome(Some(RolesOf(ps)), false)
  {
  }

  /** Once the roles are stored, any later change of the query result clears them: the
      cleanup sets them to undefined, and the new effect still sees the stored roles of its
      own render, so its guard fails and the roles stay unset. */
  lemma StoredRolesLostOnChange(stored: seq<Role>, q: QueryResult)
    ensures EffectRun(Some(stored), true, q) == Outcome(None, false)
  {
  }

  /** Roles are populated exactly when the render saw no roles, the query settled without
      error and its data holds a permission list. */
  lemma PopulatesExactly(rendered: Option<seq<Role>>, q: QueryResult)
    ensures EffectRun(rendered, true, q).roles.Some? <==>
      rendered.None? && !q.loading && q.error.None? && q.data.Some? && q.data.value.getAllPermissions.Some?
  {
  }
}
