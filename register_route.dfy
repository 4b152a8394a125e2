/**
 * The mock registration endpoint of app/api/auth/register/route.ts: ordered
 * validation branches, then a `push` onto the module-level `mockUsers` array.
 * The session cookie and its random token are not modelled.
 */
module RegisterRoute {
  import opened Options
  import opened Text
  import opened Users

  /** The JSON body; an absent field is `None`. */
  datatype RegisterRequest = RegisterRequest(name: Option<string>, email: Option<string>, password: Option<string>)

  datatype Response =
    | Registered(user: User)
    | Failed(status: nat, error: string)

  const MinPasswordLength: nat := 6

  /** `mockUsers.find(user => user.email === email)` finds a user. */
  predicate EmailTaken(users: seq<User>, email: string) {
    exists i :: 0 <= i < |users| && users[i].email == email
  }

  /**
   * The response of `POST` against the table `users`. `body == None` is a
   * body `request.json()` cannot parse, which the `catch` turns into 500.
   */
  function Decide(users: seq<User>, body: Option<RegisterRequest>): Response
  {
    match body
    case None => Failed(500, "Internal server error")
    case Some(req) =>
      if !Given(req.name) || !Given(req.email) || !Given(req.password) then
        Failed(400, "Name, email, and password are required")
      else if EmailTaken(users, req.email.value) then
        Failed(409, "User with this email already exists")
      else if |req.password.value| < MinPasswordLength then
        Failed(400, "Password must be at least 6 characters long")
      else
        Registered(User(DecimalString(|users| + 1), req.name.value, req.email.value, None))
  }

  /**
   * The branches in their order: a missing field is 400, then a taken email
   * is 409 whatever the password, then a short password is 400, and only a
   * request passing all three registers.
   */
  lemma DecideOrder(users: seq<User>, req: RegisterRequest)
    ensures !Given(req.name) || !Given(req.email) || !Given(req.password) ==>
      Decide(users, Some(req)) == Failed(400, "Name, email, and password are required")
    ensures Given(req.name) && Given(req.email) && Given(req.password) && EmailTaken(users, req.email.value) ==>
      Decide(users, Some(req)).Failed? && Decide(users, Some(req)).status == 409
    ensures (Given(req.name) && Given(req.email) && Given(req.password) && !EmailTaken(users, req.email.value)
             && |req.password.value| < 6) ==>
      Decide(users, Some(req)) == Failed(400, "Password must be at least 6 characters long")
    ensures Decide(users, Some(req)).Registered? <==>
      Given(req.name) && Given(req.email) && Given(req.password)
      && !EmailTaken(users, req.email.value) && |req.password.value| >= 6
  {
  }

  /** A duplicate email with a short password is reported as 409, not 400. */
  lemma DuplicateBeatsShortPassword(users: seq<User>, name: string, email: string, password: string)
    requires name != "" && email != "" && 0 < |password| < 6
    requires EmailTaken(users, email)
    ensures Decide(users, Some(RegisterRequest(Some(name), Some(email), Some(password)))).status == 409
  {
  }

  /**
   * A registered user gets id `length + 1` in decimal, the request's name and
   * email, and no avatar; the record has no password field at all.
   */
  lemma RegisteredUser(users: seq<User>, req: RegisterRequest)
    requires Decide(users, Some(req)).Registered?
    ensures var u := Decide(users, Some(req)).user;
      u.id == DecimalString(|users| + 1) && Some(u.name) == req.name && Some(u.email) == req.email && u.avatar == None
    ensures !EmailTaken(users, Decide(users, Some(req)).user.email)
  {
  }

  /** Ids equal the users' 1-based positions. */
  ghost predicate SequentialIds(users: seq<User>) {
    forall i :: 0 <= i < |users| ==> users[i].id == DecimalString(i + 1)
  }

  ghost predicate DistinctEmails(users: seq<User>) {
    forall i, j :: 0 <= i < j < |users| ==> users[i].email != users[j].email
  }

  /** Sequential ids are distinct ids. */
  lemma SequentialIdsAreDistinct(users: seq<User>)
    requires SequentialIds(users)
    ensures forall i, j :: 0 <= i < j < |users| ==> users[i].id != users[j].id
  {
    forall i, j | 0 <= i < j < |users|
      ensures users[i].id != users[j].id
    {
      if users[i].id == users[j].id {
        DecimalStringInjective(i + 1, j + 1);
      }
    }
  }

  /** The module-level `mockUsers` array, which only `POST` changes. */
  class MockUserTable {
    var users: seq<User>

    /** The seed user comes first, ids are positions, and no email is registered twice. */
    ghost predicate Valid()
      reads this
    {
      |users| >= 1 && users[0] == JohnDoe && SequentialIds(users) && DistinctEmails(users)
    }

    constructor ()
      ensures Valid()
      ensures users == [JohnDoe]
    {
      users := [JohnDoe];
    }

    /** `POST(request)`: a failed check returns its status and leaves the table alone; success appends one user. */
    method Post(body: Option<RegisterRequest>) returns (resp: Response)
      requires Valid()
      modifies this
      ensures Valid()
      ensures resp == Decide(old(users), body)
      ensures users == if resp.Registered? then old(users) + [resp.user] else old(users)
    {
      if body.None? {
        return Failed(500, "Internal server error");
      }
      var req := body.value;
      if !Given(req.name) || !Given(req.email) || !Given(req.password) {
        return Failed(400, "Name, email, and password are required");
      }
      var name, email, password := req.name.value, req.email.value, req.password.value;
      if EmailTaken(users, email) {
        return Failed(409, "User with this email already exists");
      }
      if |password| < MinPasswordLength {
        return Failed(400, "Password must be at least 6 characters long");
      }
      var newUser := User(DecimalString(|users| + 1), name, email, None);
      users := users + [newUser];
      resp := Registered(newUser);
    }
  }

  /** Two successful registrations in a row get the next two ids, which differ. */
  method RegisterTwice(table: MockUserTable, a: RegisterRequest, b: RegisterRequest)
    returns (ra: Response, rb: Response)
    requires table.Valid()
    modifies table
    ensures table.Valid()
    ensures ra.Registered? && rb.Registered? ==> ra.user.id != rb.user.id && ra.user.email != rb.user.email
  {
    ghost var before := table.users;
    ra := table.Post(Some(a));
    ghost var between := table.users;
    rb := table.Post(Some(b));
    if ra.Registered? && rb.Registered? {
      assert between == before + [ra.user];
      assert ra.user.id == DecimalString(|before| + 1);
      assert rb.user.id == DecimalString(|before| + 2);
      if ra.user.id == rb.user.id {
        DecimalStringInjective(|before| + 1, |before| + 2);
      }
      assert between[|before|] == ra.user;
    }
  }
}
