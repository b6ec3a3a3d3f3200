/** The HTTP interceptor: it signs every request with the stored token and
    reacts to error statuses before passing the error on. */
module Interceptor {
  import opened Wrappers
  import opened Guards
  import opened Auth

  /** A request, as far as its headers go. */
  datatype Request = Request(url: string, headers: map<string, string>)

  const AuthorizationHeader := "Authorization"

  /** intercept, on the way out: a truthy token is attached as a bearer
      header; without one the request goes out untouched. */
  function Sign(s: Store, req: Request): (r: Request)
    ensures r.url == req.url
    ensures Get(s, TokenKey).None? || Get(s, TokenKey) == Some("") ==> r == req
    ensures Get(s, TokenKey).Some? && Get(s, TokenKey) != Some("") ==>
      r.headers == req.headers[AuthorizationHeader := "Bearer " + s[TokenKey]]
  {
    match Get(s, TokenKey)
    case Some(token) => if token != "" then req.(headers := req.headers[AuthorizationHeader := "Bearer " + token]) else req
    case None => req
  }

  /** The interceptor's reaction to a failed request: the store it leaves,
      the navigation it starts, and the error it rethrows. */
  datatype Reaction = Reaction(store: Store, navigate: Option<string>, rethrown: int)

  /** intercept, on an error: 401 empties the whole store and goes to the
      login page; every other status (403 and 500 only log) leaves both
      alone; the error is always passed on as it came. */
  function OnError(s: Store, status: int): (r: Reaction)
    ensures r.rethrown == status
    ensures status == 401 ==> r.store == map[] && r.navigate == Some("/login")
    ensures status != 401 ==> r.store == s && r.navigate == None
  {
    if status == 401 then Reaction(map[], Some("/login"), status)
    else Reaction(s, None, status)
  }

  /** After a 401 no guard admits anyone and the interceptor adds no
      Authorization header to later requests. */
  lemma UnauthorizedSignsOut(s: Store, g: Guard, req: Request)
    ensures !Accepts(g, Get(OnError(s, 401).store, RoleIdKey))
    ensures Sign(OnError(s, 401).store, req) == req
  {
  }
}
