/** The add/update user dialog (src/pages/users/components/user-dialog.tsx): the form's
    validation rules, the mapping between selected role ids and role records, and the
    dialog's open/prefill/reset behaviour. */
module UserDialog {
  import opened Wrappers
  import opened UsersTypes
  import opened Text

  /** The form's values. `role` holds the selected role ids; a prefilled id copied from a
      role without `_id` is undefined. */
  datatype FormValues = FormValues(id: Option<string>, name: string, email: string, role: seq<Option<string>>, version: Option<int>)

  /** `defaultValues`, which `form.reset()` restores. */
  const DefaultValues: FormValues := FormValues(None, "", "", [], None)

  datatype Field = NameField | EmailField | RoleField

  /** `formSchema` (user-dialog.tsx:32-44): the fields that fail. The name and the email
      need a JavaScript `length` of at least two, counted in UTF-16 code units (no format
      check); the role list needs at least one
      entry and every entry must be a string; `_id` and `version` are optional. */
  function Validate(v: FormValues): (errs: set<Field>)
    ensures NameField in errs <==> Utf16Len(v.name) < 2
    ensures EmailField in errs <==> Utf16Len(v.email) < 2
    ensures RoleField in errs <==> |v.role| == 0 || exists i :: 0 <= i < |v.role| && v.role[i].None?
  {
    (if Utf16Len(v.name) < 2 then {NameField} else {})
    + (if Utf16Len(v.email) < 2 then {EmailField} else {})
    + (if |v.role| == 0 || (exists i :: 0 <= i < |v.role| && v.role[i].None?) then {RoleField} else {})
  }

  /** The freshly reset form fails on all three checked fields. */
  lemma DefaultFormFails()
    ensures Validate(DefaultValues) == {NameField, EmailField, RoleField}
  {
  }

  /** A name of one astral character has `length` 2 and passes; a name of one other
      character fails. */
  lemma OneCharacterNames(email: string, role: seq<Option<string>>)
    ensures NameField !in Validate(FormValues(None, "\U{1F600}", email, role, None))
    ensures NameField in Validate(FormValues(None, "a", email, role, None))
  {
    assert Utf16Len("\U{1F600}") == 2 by {
      assert Astral("\U{1F600}"[0]);
      assert "\U{1F600}"[1..] == "";
    }
    assert Utf16Len("a") == 1 by {
      assert "a"[1..] == "";
    }
  }

  /** `roles.find((role) => role._id === id)`: a role with that id, when there is one. */
  function FindRole(roles: seq<Role>, id: string): (r: Option<Role>)
    ensures r.Some? <==> Some(id) in RoleIds(roles)
    ensures r.Some? ==> r.value.id == Some(id) && r.value in roles
  {
    if |roles| == 0 then None
    else if roles[0].id == Some(id) then
      assert RoleIds(roles)[0] == Some(id);
      Some(roles[0])
    else
      assert RoleIds(roles) == [roles[0].id] + RoleIds(roles[1..]);
      FindRole(roles[1..], id)
  }

  /** The role found is the FIRST one with the id: when no role before position `k` has
      it, `find` returns the role at `k`. */
  lemma {:induction false} FindRoleFirst(roles: seq<Role>, id: string, k: nat)
    requires k < |roles| && roles[k].id == Some(id)
    requires forall i :: 0 <= i < k ==> roles[i].id != Some(id)
    ensures FindRole(roles, id) == Some(roles[k])
  {
    if k > 0 {
      assert roles[0].id != Some(id);
      FindRoleFirst(roles[1..], id, k - 1);
    }
  }

  /** The submitted role list (user-dialog.tsx:63): for each selected id, in order, the
      first role with that id; the non-null assertion is erased, so an id with no role
      gives undefined (None). */
  function RolesForIds(ids: seq<string>, roles: seq<Role>): (r: seq<Option<Role>>)
    ensures |r| == |ids|
    ensures forall i :: 0 <= i < |ids| ==> r[i] == FindRole(roles, ids[i])
  {
    if |ids| == 0 then [] else [FindRole(roles, ids[0])] + RolesForIds(ids[1..], roles)
  }

  /** The defined values of a list with no undefined entry. */
  function Present<T>(xs: seq<Option<T>>): (r: seq<T>)
    requires forall i :: 0 <= i < |xs| ==> xs[i].Some?
    ensures |r| == |xs| && forall i :: 0 <= i < |xs| ==> r[i] == xs[i].value
  {
    if |xs| == 0 then [] else [xs[0].value] + Present(xs[1..])
  }

  /** `[x]` of each string, as the form stores ids. */
  function Defined<T>(xs: seq<T>): (r: seq<Option<T>>)
    ensures |r| == |xs| && forall i :: 0 <= i < |xs| ==> r[i] == Some(xs[i])
  {
    if |xs| == 0 then [] else [Some(xs[0])] + Defined(xs[1..])
  }

  /** Ids to roles and back: when every selected id names a role, every submitted role is
      defined, and prefilling from them selects the same ids again. */
  lemma IdsToRolesToIds(ids: seq<string>, roles: seq<Role>)
    requires forall i :: 0 <= i < |ids| ==> Some(ids[i]) in RoleIds(roles)
    ensures forall i :: 0 <= i < |ids| ==> RolesForIds(ids, roles)[i].Some?
    ensures RoleIds(Present(RolesForIds(ids, roles))) == Defined(ids)
  {
    var rs := RolesForIds(ids, roles);
    forall i | 0 <= i < |ids| ensures rs[i].Some? && rs[i].value.id == Some(ids[i]) {
      assert rs[i] == FindRole(roles, ids[i]);
    }
  }

  /** No two roles of the list share an id. */
  predicate RoleIdsDistinct(roles: seq<Role>)
  {
    forall i, j :: 0 <= i < j < |roles| ==> roles[i].id != roles[j].id
  }

  /** Roles to ids and back: a user's roles, each taken from a role list whose ids are
      defined and distinct, are recovered exactly from their ids. */
  lemma RolesToIdsToRoles(userRoles: seq<Role>, roles: seq<Role>)
    requires RoleIdsDistinct(roles)
    requires forall i :: 0 <= i < |userRoles| ==> userRoles[i] in roles && userRoles[i].id.Some?
    ensures forall i :: 0 <= i < |RoleIds(userRoles)| ==> RoleIds(userRoles)[i].Some?
    ensures RolesForIds(Present(RoleIds(userRoles)), roles) == Defined(userRoles)
  {
    var ids := Present(RoleIds(userRoles));
    var r := RolesForIds(ids, roles);
    forall i | 0 <= i < |userRoles| ensures r[i] == Some(userRoles[i]) {
      var id := ids[i];
      assert id == userRoles[i].id.value;
      var k :| 0 <= k < |roles| && roles[k] == userRoles[i];
      FindRoleFirst(roles, id, k);
    }
  }

  /** The form values after the dialog opens on `data` (user-dialog.tsx:82-88). */
  function Prefill(data: UserInput<seq<Role>>): (v: FormValues)
    ensures v.id == data.id && v.name == data.name && v.email == data.email && v.version == data.version
    ensures |v.role| == |data.role| && forall i :: 0 <= i < |data.role| ==> v.role[i] == data.role[i].id
  {
    FormValues(data.id, data.name, data.email, RoleIds(data.role), data.version)
  }

  /** A prefilled form passes validation exactly when the name and the email have a
      UTF-16 length of two or more and there is at least one role, each with a defined id. */
  lemma PrefillValid(data: UserInput<seq<Role>>)
    ensures Validate(Prefill(data)) == {} <==>
      Utf16Len(data.name) >= 2 && Utf16Len(data.email) >= 2 && |data.role| >= 1 && forall i :: 0 <= i < |data.role| ==> data.role[i].id.Some?
  {
    var v := Prefill(data);
    if Validate(v) == {} {
      forall i | 0 <= i < |data.role| ensures data.role[i].id.Some? {
        assert v.role[i] == data.role[i].id;
      }
    }
  }

  datatype Title = AddTitle | UpdateTitle

  /** The title (user-dialog.tsx:97-99): "add" exactly when `_id` is undefined. */
  function TitleOf(v: FormValues): (t: Title)
    ensures t == AddTitle <==> v.id.None?
  {
    if v.id.None? then AddTitle else UpdateTitle
  }

  /** What `onSubmit` hands to `submit` for validated values. */
  function Submission(v: FormValues, roles: seq<Role>): (r: UserInput<seq<Option<Role>>>)
    requires Validate(v) == {}
    ensures r.id == v.id && r.name == v.name && r.email == v.email && r.version == v.version
    ensures |r.role| == |v.role|
    ensures forall i :: 0 <= i < |v.role| ==> r.role[i] == FindRole(roles, v.role[i].value)
  {
    assert forall i :: 0 <= i < |v.role| ==> v.role[i].Some?;
    UserInput(v.id, v.name, v.email, RolesForIds(Present(v.role), roles), v.version)
  }

  /** The dialog component's state. */
  class Dialog {
    var isOpen: bool
    var form: FormValues

    constructor ()
      ensures !isOpen && form == DefaultValues
    {
      isOpen := false;
      form := DefaultValues;
    }

    function Title(): (t: Title)
      reads this
      ensures t == AddTitle <==> form.id.None?
    {
      TitleOf(form)
    }

    /** `onOpenChange` (user-dialog.tsx:75-90): closing resets the form; opening with data
        sets the five fields one by one; opening without data keeps the form. */
    method OpenChange(next: bool, data: Option<UserInput<seq<Role>>>)
      modifies this
      ensures isOpen == next
      ensures !next ==> form == DefaultValues
      ensures next && data.Some? ==> form == Prefill(data.value)
      ensures next && data.None? ==> form == old(form)
    {
      isOpen := next;
      if !next {
        form := DefaultValues;
      } else if data.Some? {
        var d := data.value;
        form := form.(id := d.id);
        form := form.(name := d.name);
        form := form.(email := d.email);
        form := form.(role := RoleIds(d.role));
        form := form.(version := d.version);
      }
    }

    /** Pressing submit: `handleSubmit` runs `onSubmit` (user-dialog.tsx:57-69) only on
        values that pass the schema; `submit` is called only when given; then the form is
        reset and the dialog closed. Invalid values change nothing. */
    method Submit(roles: seq<Role>, hasSubmit: bool) returns (submitted: Option<UserInput<seq<Option<Role>>>>)
      modifies this
      ensures Validate(old(form)) != {} ==> submitted == None && form == old(form) && isOpen == old(isOpen)
      ensures Validate(old(form)) == {} ==> form == DefaultValues && !isOpen
      ensures Validate(old(form)) == {} ==> submitted == if hasSubmit then Some(Submission(old(form), roles)) else None
    {
      if Validate(form) != {} {
        submitted := None;
        return;
      }
      submitted := if hasSubmit then Some(Submission(form, roles)) else None;
      form := DefaultValues;
      isOpen := false;
    }
  }
}
