/**
 * The mock login endpoint of app/api/auth/login/route.ts: a fixed user table,
 * a password check that accepts any password of six or more characters for
 * the demo email, and ordered status-code branches. The session cookie and
 * its random token are not modelled.
 */
module LoginRoute {
  import opened Options
  import opened Users
  import RegisterRoute

  /** This file's own `mockUsers` constant; registrations never reach it. */
  const MockUsers: seq<User> := [JohnDoe]

  const DemoEmail: string := "john@example.com"

  /** `validatePassword(email, password)`: the demo user for the demo email and a long enough password. */
  function ValidatePassword(email: string, password: string): (r: Option<User>)
    ensures r.Some? <==> email == DemoEmail && |password| >= 6
    ensures r.Some? ==> r.value == MockUsers[0]
  {
    if email == DemoEmail && |password| >= 6 then Some(MockUsers[0]) else None
  }

  datatype LoginRequest = LoginRequest(email: Option<string>, password: Option<string>)

  datatype Response =
    | LoggedIn(user: User)
    | Failed(status: nat, error: string)

  /** `POST(request)`; `body == None` is a body `request.json()` cannot parse, answered with 500. */
  function Post(body: Option<LoginRequest>): (r: Response)
    ensures body.None? ==> r == Failed(500, "Internal server error")
    ensures body.Some? && (!Given(body.value.email) || !Given(body.value.password)) ==>
      r == Failed(400, "Email and password are required")
    ensures (body.Some? && Given(body.value.email) && Given(body.value.password)
             && ValidatePassword(body.value.email.value, body.value.password.value).None?) ==>
      r == Failed(401, "Invalid email or password")
    ensures r.LoggedIn? <==>
      (body.Some? && Given(body.value.email) && Given(body.value.password)
       && body.value.email.value == DemoEmail && |body.value.password.value| >= 6)
    ensures r.LoggedIn? ==> r.user == MockUsers[0]
  {
    match body
    case None => Failed(500, "Internal server error")
    case Some(req) =>
      if !Given(req.email) || !Given(req.password) then
        Failed(400, "Email and password are required")
      else
        match ValidatePassword(req.email.value, req.password.value)
        case None => Failed(401, "Invalid email or password")
        case Some(user) => LoggedIn(user)
  }

  /**
   * The two routes keep separate tables: a user the registration route
   * created with any other email than the demo one cannot log in.
   */
  lemma RegisteredUsersCannotLogIn(users: seq<User>, req: RegisterRoute.RegisterRequest, password: string)
    requires RegisterRoute.Decide(users, Some(req)).Registered?
    requires req.email != Some(DemoEmail)
    ensures Post(Some(LoginRequest(req.email, Some(password)))).Failed?
  {
  }
}
