/** The login page: the form check, the storage writes on a successful
    login, and the password visibility toggle. */
module Login {
  import opened Wrappers
  import opened Guards
  import opened Auth

  /** The server's answer to a login; a missing field is undefined. */
  datatype Reply = Reply(token: Option<string>, username: Option<string>)

  /** The page after a submit: the store, the error message it set (None
      when left as it was), whether the login call was made, whether the
      form was reset, and whether the dashboard navigation was scheduled. */
  datatype Outcome = Outcome(store: Store, message: Option<string>, requested: bool, reset: bool, toDashboard: bool)

  const InvalidMessage := "Kerakli Malumotlarni kiriting"

  /** onSubmit. An invalid form only sets the message. A failed call sets
      the server's message. A successful one stores the token and username,
      then the id and role from the token; if that throws, the two writes
      already made stay and the rest of the handler is skipped. */
  function Submit(s: Store, formValid: bool, reply: Result<Reply, string>, decode: string -> Option<Claims>): (o: Outcome)
    ensures !formValid ==> o == Outcome(s, Some(InvalidMessage), false, false, false)
    ensures formValid ==> o.requested
    ensures formValid && reply.Err? ==> o.store == s && o.message == Some(reply.error) && !o.reset
    ensures o.reset <==> o.toDashboard
    ensures o.reset ==> o.message.None? && RoleIdKey in o.store && UserIdKey in o.store
    ensures formValid && reply.Ok? ==>
      Get(o.store, TokenKey) == Some(Stored(reply.value.token)) &&
      Get(o.store, UsernameKey) == Some(Stored(reply.value.username))
  {
    if !formValid then Outcome(s, Some(InvalidMessage), false, false, false)
    else match reply
      case Err(message) => Outcome(s, Some(message), true, false, false)
      case Ok(res) =>
        var written := s[TokenKey := Stored(res.token)][UsernameKey := Stored(res.username)];
        match SetUserDetails(written, decode)
        case Ok(after) => Outcome(after, None, true, true, true)
        case Err(_) => Outcome(written, None, true, false, false)
  }

  /** A successful login whose token decodes leaves the guards deciding by
      the token's role claim. */
  lemma LoginGrantsTokenRole(s: Store, res: Reply, decode: string -> Option<Claims>, g: Guard)
    requires res.token.Some? && res.token.value != ""
    requires decode(res.token.value).Some?
    ensures Submit(s, true, Ok(res), decode).reset
    ensures Accepts(g, Get(Submit(s, true, Ok(res), decode).store, RoleIdKey)) <==>
      Accepts(g, Some(Stored(decode(res.token.value).value.roleId)))
  {
    var written := s[TokenKey := Stored(res.token)][UsernameKey := Stored(res.username)];
    assert Get(written, TokenKey) == Some(res.token.value);
    GuardsReadTokenRole(written, decode);
  }

  /** togglePasswordVisibility. */
  function TogglePasswordVisibility(shown: bool): (r: bool)
    ensures r != shown
  {
    !shown
  }

  /** Toggling twice shows the password as it was. */
  lemma ToggleTwice(shown: bool)
    ensures TogglePasswordVisibility(TogglePasswordVisibility(shown)) == shown
  {
  }
}
