/** The users table's columns (src/pages/users/hooks/useColumns.tsx): the row-to-form copy,
    the role cell text and the arguments the row actions pass on. */
module Columns {
  import opened Wrappers
  import opened Text
  import opened UsersTypes
  import opened UsersApi
  import opened UserDialog

  /** `parse` (useColumns.tsx:18-26): the five form fields of a row, copied; the audit
      fields have no place in the result type. */
  function Parse(u: User): (r: UserInput<seq<Role>>)
    ensures r.id == u.id && r.name == u.name && r.email == u.email && r.role == u.role && r.version == u.version
  {
    UserInput(u.id, u.name, u.email, u.role, u.version)
  }

  /** `role.map((role) => role.name)`. */
  function RoleNames(roles: seq<Role>): (names: seq<string>)
    ensures |names| == |roles|
    ensures forall i :: 0 <= i < |roles| ==> names[i] == roles[i].name
  {
    if |roles| == 0 then [] else [roles[0].name] + RoleNames(roles[1..])
  }

  /** The role cell's text (useColumns.tsx:58). */
  function RoleCell(roles: seq<Role>): (r: string)
    ensures |roles| == 0 ==> r == ""
    ensures |roles| > 0 ==> roles[0].name <= r
  {
    Join(RoleNames(roles), ", ")
  }

  /** A row with no role shows an empty cell, a single role shows its name alone. */
  lemma RoleCellShort(r: Role)
    ensures RoleCell([]) == ""
    ensures RoleCell([r]) == r.name
  {
    assert RoleNames([r]) == [r.name];
  }

  /** One more role appends `", "` and its name: the names appear in list order. */
  lemma RoleCellSnoc(roles: seq<Role>, r: Role)
    requires |roles| > 0
    ensures RoleCell(roles + [r]) == RoleCell(roles) + ", " + r.name
  {
    assert RoleNames(roles + [r]) == RoleNames(roles) + [r.name];
    JoinSnoc(RoleNames(roles), r.name, ", ");
  }

  /** Every role's name appears in the cell. */
  lemma RoleCellShowsEveryName(roles: seq<Role>, i: nat)
    requires i < |roles|
    ensures Contains(RoleCell(roles), roles[i].name)
  {
    JoinContainsPart(RoleNames(roles), ", ", i);
  }

  /** The delete action's argument (useColumns.tsx:93): the row's `_id`; the non-null
      assertion is erased, so an undefined id is passed as undefined. */
  function DeleteArg(u: User): (r: Option<string>)
    ensures r == u.id
  {
    u.id
  }

  /** The delete action's optimistic patch takes the row, and every record sharing its id,
      out of a cached list, and keeps every other record. */
  lemma DeleteActionRemovesRow(u: User, list: seq<User>)
    ensures u !in DeleteRecords(list, DeleteArg(u))
    ensures forall x :: x in DeleteRecords(list, DeleteArg(u)) <==> x in list && x.id != u.id
  {
  }

  /** The `roles` handed to the dialog (useColumns.tsx:82): the loaded list, or `[]`. */
  function DialogRoles(loaded: Option<seq<Role>>): (roles: seq<Role>)
    ensures loaded.Some? ==> roles == loaded.value
    ensures loaded.None? ==> roles == []
  {
    if loaded.Some? then loaded.value else []
  }

  /** The dialog's submission as `updateUser` receives it, when every role was found.
      Every selected id names a loaded role by the time the form can be submitted: the
      role selector's label at user-dialog.tsx:149 reads `filter(...)[0].name`, which
      throws during the render for an id no loaded role has, so no such form is ever
      shown and submitted. */
  function Settled(s: UserInput<seq<Option<Role>>>): (r: UserInput<seq<Role>>)
    requires forall i :: 0 <= i < |s.role| ==> s.role[i].Some?
    ensures r.id == s.id && r.name == s.name && r.email == s.email && r.version == s.version
    ensures |r.role| == |s.role| && forall i :: 0 <= i < |s.role| ==> Some(r.role[i]) == s.role[i]
  {
    UserInput(s.id, s.name, s.email, Present(s.role), s.version)
  }

  /** The update patch with a row's own data leaves a list whose records with that id
      equal the row unchanged. */
  lemma UpdateWithOwnRow(u: User, list: seq<User>)
    requires forall i :: 0 <= i < |list| && list[i].id == u.id ==> list[i] == u
    ensures UpdateRecords(list, Parse(u)) == list
  {
    var r := UpdateRecords(list, Parse(u));
    forall i | 0 <= i < |list| ensures r[i] == list[i] {
      assert r[i] == UpdateRecord(list[i], Parse(u));
    }
  }

  /** Opening the update dialog on a row (useColumns.tsx:80-86) and submitting it without
      edits: when the row's roles come from the role list, each with a defined id, and the
      list's ids are distinct, every submitted role is found and the submission is the
      row's own data, so the optimistic update patch changes nothing in a cached list whose
      records with that id equal the row. */
  lemma {:induction false} UnchangedUpdateIsNoOp(u: User, roles: seq<Role>, list: seq<User>)
    requires RoleIdsDistinct(roles)
    requires forall i :: 0 <= i < |u.role| ==> u.role[i] in roles && u.role[i].id.Some?
    requires Validate(Prefill(Parse(u))) == {}
    requires forall i :: 0 <= i < |list| && list[i].id == u.id ==> list[i] == u
    ensures forall i :: 0 <= i < |u.role| ==> Submission(Prefill(Parse(u)), roles).role[i].Some?
    ensures Settled(Submission(Prefill(Parse(u)), roles)) == Parse(u)
    ensures UpdateRecords(list, Settled(Submission(Prefill(Parse(u)), roles))) == list
  {
    var v := Prefill(Parse(u));
    RolesToIdsToRoles(u.role, roles);
    var s := Submission(v, roles);
    assert Present(v.role) == Present(RoleIds(u.role));
    assert s.role == Defined(u.role);
    assert Settled(s).role == u.role;
    UpdateWithOwnRow(u, list);
  }
}
