/** The session as the browser's local storage holds it, and the auth
    service's reads and writes of it. The JWT decoder is a parameter: it
    yields the token's claims, or None where the library throws. */
module Auth {
  import opened Wrappers
  import opened Guards

  /** Local storage: string keys to string values. */
  type Store = map<string, string>

  const TokenKey := "token"
  const UsernameKey := "username"
  const UserIdKey := "userId"
  const RoleIdKey := "roleId"

  /** `localStorage.getItem(k)`: null for a missing key. */
  function Get(s: Store, k: string): Option<string>
  {
    if k in s then Some(s[k]) else None
  }

  /** The claims read from a token; a claim the token lacks is undefined. */
  datatype Claims = Claims(id: Option<string>, roleId: Option<string>)

  /** `localStorage.setItem(k, v)` turns an undefined value into the text "undefined". */
  function Stored(v: Option<string>): string
  {
    match v
    case Some(text) => text
    case None => "undefined"
  }

  /** getDecodedToken: nothing without a (non-empty) token, otherwise what the
      decoder makes of it (undefined when it throws). */
  function DecodedToken(s: Store, decode: string -> Option<Claims>): (c: Option<Claims>)
    ensures Get(s, TokenKey).None? || Get(s, TokenKey) == Some("") ==> c.None?
    ensures c.Some? ==> TokenKey in s && c == decode(s[TokenKey])
    ensures Get(s, TokenKey).Some? && s[TokenKey] != "" ==> c == decode(s[TokenKey])
  {
    match Get(s, TokenKey)
    case None => None
    case Some(token) => if token == "" then None else decode(token)
  }

  /** getUserRole: null when nothing was decoded, else the token's role claim. */
  function UserRole(s: Store, decode: string -> Option<Claims>): (role: Option<string>)
    ensures DecodedToken(s, decode).None? ==> role.None?
    ensures DecodedToken(s, decode).Some? ==> role == DecodedToken(s, decode).value.roleId
  {
    match DecodedToken(s, decode)
    case None => None
    case Some(claims) => claims.roleId
  }

  /** setUserDetails: writes the token's id and role under userId and
      roleId and touches nothing else; without decoded claims it throws
      before writing anything. */
  function SetUserDetails(s: Store, decode: string -> Option<Claims>): (r: Result<Store, string>)
    ensures r.Err? <==> DecodedToken(s, decode).None?
    ensures r.Ok? ==> r.value.Keys == s.Keys + {UserIdKey, RoleIdKey}
    ensures r.Ok? ==> forall k :: k in s && k != UserIdKey && k != RoleIdKey ==> r.value[k] == s[k]
    ensures r.Ok? ==> r.value[UserIdKey] == Stored(DecodedToken(s, decode).value.id)
  {
    match DecodedToken(s, decode)
    case None => Err("TypeError: cannot read properties of null")
    case Some(claims) => Ok(s[UserIdKey := Stored(claims.id)][RoleIdKey := Stored(claims.roleId)])
  }

  /** After setUserDetails the guards read the role the token carries (or
      the text "undefined" when it carries none). */
  lemma GuardsReadTokenRole(s: Store, decode: string -> Option<Claims>)
    requires SetUserDetails(s, decode).Ok?
    ensures Get(SetUserDetails(s, decode).value, RoleIdKey) == Some(Stored(UserRole(s, decode)))
  {
  }

  /** logout: removes the user id and the role and nothing else; the token
      and the username stay. */
  function Logout(s: Store): (r: Store)
    ensures UserIdKey !in r && RoleIdKey !in r
    ensures forall k :: k != UserIdKey && k != RoleIdKey ==> (k in r <==> k in s)
    ensures forall k :: k in r ==> r[k] == s[k]
  {
    s - {UserIdKey, RoleIdKey}
  }

  /** After logout every guard refuses, though the token is still stored. */
  lemma LogoutLocksGuards(s: Store, g: Guard)
    ensures !Accepts(g, Get(Logout(s), RoleIdKey))
    ensures Get(Logout(s), TokenKey) == Get(s, TokenKey)
  {
  }
}
