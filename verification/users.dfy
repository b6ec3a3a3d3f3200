/** The user administration page: the register and edit dialogs' checks,
    the delete password gate and the role-name lookup. */
module Users {
  import opened Wrappers
  import opened Text
  import opened ListView
  import opened Amounts

  /** What the register dialog hands on: the three trimmed inputs. */
  datatype Registration = Registration(username: string, password: string, roleId: string)

  const RegisterMessage := "Iltimos, username, password va ro‘lni tanlang"

  /** The register dialog's preConfirm: each input is trimmed, and an empty
      one keeps the dialog open with the validation message. */
  function RegisterCheck(username: string, password: string, roleId: string): (r: Result<Registration, string>)
    ensures r.Ok? <==> !AllSpace(username) && !AllSpace(password) && !AllSpace(roleId)
    ensures r.Ok? ==> r.value.username != "" && r.value.password != "" && r.value.roleId != ""
    ensures r.Ok? ==> r.value == Registration(Trim(username), Trim(password), Trim(roleId))
    ensures r.Err? ==> r.error == RegisterMessage
  {
    TrimEmptyIff(username);
    TrimEmptyIff(password);
    TrimEmptyIff(roleId);
    var u, p, role := Trim(username), Trim(password), Trim(roleId);
    if u == "" || p == "" || role == "" then Err(RegisterMessage)
    else Ok(Registration(u, p, role))
  }

  /** The edit dialog's check: username and password as typed (not
      trimmed) must be non-empty, and `Number` of the role must be truthy. */
  function EditCheck(username: string, password: string, roleId: Num): (r: Result<(), string>)
    ensures r.Ok? <==> username != "" && password != "" && roleId.Finite? && roleId.n != 0.0
  {
    if password == "" || !Truthy(roleId) || username == "" then
      Err("Role tanlanishi va username va password kiritilishi kerak!")
    else Ok(())
  }

  /** Editing, unlike registering, lets blank names through: a name and
      password of spaces alone pass the edit check and fail registration. */
  lemma BlankPassesEditOnly(name: string, role: string)
    requires |name| > 0 && AllSpace(name)
    ensures EditCheck(name, name, Finite(1.0)).Ok?
    ensures RegisterCheck(name, name, role).Err?
  {
  }

  /** A role of the role list. */
  datatype Role = Role(id: string, roleName: string)

  /** `roles[i]` is the first role with this id. */
  predicate FirstWith(roles: seq<Role>, i: int, roleId: string)
  {
    0 <= i < |roles| && roles[i].id == roleId && forall j :: 0 <= j < i ==> roles[j].id != roleId
  }

  /** userRole: the name of the first role with this id, undefined if none. */
  function UserRole(roles: seq<Role>, roleId: string): (name: Option<string>)
    ensures name.None? <==> forall i :: 0 <= i < |roles| ==> roles[i].id != roleId
    ensures name.Some? ==> exists i :: FirstWith(roles, i, roleId) && roles[i].roleName == name.value
  {
    if |roles| == 0 then None
    else if roles[0].id == roleId then
      assert FirstWith(roles, 0, roleId);
      Some(roles[0].roleName)
    else
      var rest := UserRole(roles[1..], roleId);
      assert rest.Some? ==> exists i :: FirstWith(roles, i, roleId) && roles[i].roleName == rest.value by {
        if rest.Some? {
          var k :| FirstWith(roles[1..], k, roleId) && roles[1..][k].roleName == rest.value;
          assert roles[k + 1] == roles[1..][k];
          forall j | 0 <= j < k + 1 ensures roles[j].id != roleId {
            if j > 0 { assert roles[j] == roles[1..][j - 1]; }
          }
          assert FirstWith(roles, k + 1, roleId);
        }
      }
      rest
  }

  /** The delete dialog opens its confirmation only for the password "2". */
  lemma DeleteNeedsPassword(input: string)
    ensures DeletePromptFor(input) == ConfirmDelete <==> input == "2"
  {
  }
}
