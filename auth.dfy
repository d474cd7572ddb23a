/** The `/api/auth` routes: registration and login, each a ladder of early
    returns ending in a signed token. Password hashing, hash comparison and token
    signing are outside the model: the hash is an input, the comparison a
    function parameter, and a token is represented by the claims it signs. */
module Auth {
  import opened Wrappers
  import opened Text
  import opened Store

  /** The JSON body of `POST /register`; absent properties are `None`. */
  datatype RegisterRequest = RegisterRequest(
    email: Option<string>,
    password: Option<string>,
    name: Option<string>,
    userType: Option<string>,
    emergencyContact: Option<string>,
    institution: Option<string>)

  /** The JSON body of `POST /login`. */
  datatype LoginRequest = LoginRequest(email: Option<string>, password: Option<string>, userType: Option<string>)

  /** What `signToken` signs: the user's id, email and type, valid for seven days. */
  datatype TokenClaims = TokenClaims(id: nat, email: string, userType: string, expiresIn: string)

  /** The `user` object of a 201 registration response. */
  datatype RegisteredUser = RegisteredUser(
    id: nat,
    email: string,
    name: Option<string>,
    userType: string,
    emergencyContact: Option<string>,
    institution: Option<string>)

  /** The `user` object of a successful login response. */
  datatype LoggedInUser = LoggedInUser(id: nat, email: string, name: Option<string>, userType: string)

  datatype Body =
    | ErrorBody(error: string)
    | RegisteredBody(newUser: RegisteredUser, token: TokenClaims)
    | LoggedInBody(user: LoggedInUser, token: TokenClaims)

  datatype Response = Response(status: nat, body: Body)

  const MissingFields := "Email and password are required"
  const EmailTaken := "Email already registered"
  const InvalidCredentials := "Invalid credentials"
  const TypeMismatch := "User type mismatch"
  const InternalError := "Internal server error"

  /** `signToken`: the claims of a user's token. */
  function SignToken(id: nat, email: string, userType: string): (t: TokenClaims)
    ensures t.id == id && t.email == email && t.userType == userType && t.expiresIn == "7d"
  {
    TokenClaims(id, email, userType, "7d")
  }

  /** The object the register route hands to `createUser`. */
  function NewUserOf(req: RegisterRequest, passwordHash: string): NewUser
    requires req.email.Some?
  {
    NewUser(req.email.value, passwordHash, req.name, req.userType, req.emergencyContact, req.institution)
  }

  /** `POST /register` against the users table as it stands and the id the next
      insert receives. */
  function RegisterResponse(req: RegisterRequest, users: seq<User>, nextId: nat, passwordHash: string): (r: Response)
    ensures r.status == 400 <==> !Truthy(req.email) || !Truthy(req.password)
    ensures r.status == 400 ==> r.body == ErrorBody(MissingFields)
    ensures r.status == 409 <==> Truthy(req.email) && Truthy(req.password)
                                 && GetUserByEmail(users, req.email.value).Some?
    ensures r.status == 409 ==> r.body == ErrorBody(EmailTaken)
    ensures r.status == 500 <==> Truthy(req.email) && Truthy(req.password)
                                 && GetUserByEmail(users, req.email.value).None?
                                 && ParseRole(RequestedRole(req.userType)).None?
    ensures r.status == 500 ==> r.body == ErrorBody(InternalError)
    ensures r.status in {201, 400, 409, 500}
    ensures r.status == 201 ==> && r.body.RegisteredBody?
                                && r.body.newUser.id == nextId
                                && r.body.newUser.email == req.email.value
                                && r.body.newUser.name == req.name
                                && r.body.newUser.userType == RequestedRole(req.userType)
                                && r.body.newUser.emergencyContact == OrNull(req.emergencyContact)
                                && r.body.newUser.institution == OrNull(req.institution)
                                && r.body.token == SignToken(nextId, req.email.value, RequestedRole(req.userType))
  {
    if !Truthy(req.email) || !Truthy(req.password) then Response(400, ErrorBody(MissingFields))
    else if GetUserByEmail(users, req.email.value).Some? then Response(409, ErrorBody(EmailTaken))
    else if CreateUserError(users, NewUserOf(req, passwordHash)).Some? then Response(500, ErrorBody(InternalError))
    else
      var userType := RequestedRole(req.userType);
      var user := RegisteredUser(nextId, req.email.value, req.name, userType,
                                 OrNull(req.emergencyContact), OrNull(req.institution));
      Response(201, RegisteredBody(user, SignToken(nextId, req.email.value, userType)))
  }

  /** The register handler run against the database: it answers as `RegisterResponse`
      says and inserts a row exactly when it answers 201. */
  method Register(db: Database, req: RegisterRequest, passwordHash: string) returns (resp: Response)
    requires db.Valid()
    modifies db
    ensures db.Valid()
    ensures resp == RegisterResponse(req, old(db.users), old(db.nextUserId), passwordHash)
    ensures db.bookings == old(db.bookings)
    ensures db.nextUserId == old(db.nextUserId) + (if resp.status == 201 then 1 else 0)
    ensures db.nextBookingId == old(db.nextBookingId) && db.userColumns == old(db.userColumns)
    ensures resp.status != 201 ==> db.users == old(db.users)
    ensures resp.status == 201 ==>
              db.users == old(db.users) + [UserRow(old(db.nextUserId), NewUserOf(req, passwordHash))]
  {
    if !Truthy(req.email) || !Truthy(req.password) {
      return Response(400, ErrorBody(MissingFields));
    }
    var existing := GetUserByEmail(db.users, req.email.value);
    if existing.Some? {
      return Response(409, ErrorBody(EmailTaken));
    }
    var id := db.CreateUser(NewUserOf(req, passwordHash));
    if id.Failure? {
      return Response(500, ErrorBody(InternalError));
    }
    var userType := RequestedRole(req.userType);
    var user := RegisteredUser(id.value, req.email.value, req.name, userType,
                               OrNull(req.emergencyContact), OrNull(req.institution));
    resp := Response(201, RegisteredBody(user, SignToken(id.value, req.email.value, userType)));
  }

  /** `POST /login`; `compare(password, hash)` stands for the bcrypt comparison. */
  function LoginResponse(req: LoginRequest, users: seq<User>, compare: (string, string) -> bool): (r: Response)
    ensures r.status == 400 <==> !Truthy(req.email) || !Truthy(req.password)
    ensures r.status == 400 ==> r.body == ErrorBody(MissingFields)
    ensures r.status == 401 <==> Truthy(req.email) && Truthy(req.password)
                                 && (GetUserByEmail(users, req.email.value).None?
                                     || !compare(req.password.value, GetUserByEmail(users, req.email.value).value.passwordHash))
    ensures r.status == 401 ==> r.body == ErrorBody(InvalidCredentials)
    ensures r.status == 403 ==> r.body == ErrorBody(TypeMismatch)
    ensures r.status in {200, 400, 401, 403}
    ensures r.status == 200 || r.status == 403 ==>
              && Truthy(req.email) && Truthy(req.password)
              && GetUserByEmail(users, req.email.value).Some?
              && compare(req.password.value, GetUserByEmail(users, req.email.value).value.passwordHash)
    ensures r.status == 403 <==> r.status != 400 && r.status != 401 && Truthy(req.userType)
                                 && GetUserByEmail(users, req.email.value).value.role.Name() != req.userType.value
    ensures r.status == 200 ==>
              var u := GetUserByEmail(users, req.email.value).value;
              && r.body == LoggedInBody(LoggedInUser(u.id, u.email, u.name, u.role.Name()),
                                        SignToken(u.id, u.email, u.role.Name()))
              && (Truthy(req.userType) ==> u.role.Name() == req.userType.value)
  {
    if !Truthy(req.email) || !Truthy(req.password) then Response(400, ErrorBody(MissingFields))
    else
      var found := GetUserByEmail(users, req.email.value);
      if found.None? then Response(401, ErrorBody(InvalidCredentials))
      else
        var u := found.value;
        if !compare(req.password.value, u.passwordHash) then Response(401, ErrorBody(InvalidCredentials))
        else if Truthy(req.userType) && u.role.Name() != req.userType.value then Response(403, ErrorBody(TypeMismatch))
        else Response(200, LoggedInBody(LoggedInUser(u.id, u.email, u.name, u.role.Name()),
                                        SignToken(u.id, u.email, u.role.Name())))
  }

  /** An unknown email and a wrong password produce the same answer, so the response
      does not reveal whether an account exists. */
  lemma UnknownEmailLooksLikeWrongPassword(users: seq<User>, compare: (string, string) -> bool,
                                           unknown: LoginRequest, wrong: LoginRequest)
    requires Truthy(unknown.email) && Truthy(unknown.password) && GetUserByEmail(users, unknown.email.value).None?
    requires Truthy(wrong.email) && Truthy(wrong.password) && GetUserByEmail(users, wrong.email.value).Some?
    requires !compare(wrong.password.value, GetUserByEmail(users, wrong.email.value).value.passwordHash)
    ensures LoginResponse(unknown, users, compare) == LoginResponse(wrong, users, compare)
  {
  }

  /** After a 201 registration, logging in with the same email, password and user
      type succeeds as the new user, given that the stored hash matches the password. */
  lemma RegisterThenLogin(users: seq<User>, nextId: nat, req: RegisterRequest, passwordHash: string,
                          compare: (string, string) -> bool)
    requires RegisterResponse(req, users, nextId, passwordHash).status == 201
    requires compare(req.password.value, passwordHash)
    ensures var after := users + [UserRow(nextId, NewUserOf(req, passwordHash))];
            var r := LoginResponse(LoginRequest(req.email, req.password, req.userType), after, compare);
            && r.status == 200 && r.body.LoggedInBody?
            && r.body.user.id == nextId
            && r.body.user.userType == RequestedRole(req.userType)
  {
    LookupAfterAppend(users, UserRow(nextId, NewUserOf(req, passwordHash)));
  }

  /** A second registration with an email that has just been registered is refused with 409. */
  lemma RegisterTwice(users: seq<User>, nextId: nat, req: RegisterRequest, again: RegisterRequest, passwordHash: string)
    requires RegisterResponse(req, users, nextId, passwordHash).status == 201
    requires Truthy(again.password) && again.email == req.email
    ensures var after := users + [UserRow(nextId, NewUserOf(req, passwordHash))];
            RegisterResponse(again, after, nextId + 1, passwordHash).status == 409
  {
    LookupAfterAppend(users, UserRow(nextId, NewUserOf(req, passwordHash)));
  }

  /** The seeded administrator can log in with the seeded password as an admin. */
  lemma AdminSeedCanLogIn(users: seq<User>, nextId: nat, passwordHash: string, compare: (string, string) -> bool)
    requires GetUserByEmail(users, AdminEmail).None?
    requires compare("admin123", passwordHash)
    ensures var after := users + [UserRow(nextId, AdminRequest(passwordHash))];
            LoginResponse(LoginRequest(Some(AdminEmail), Some("admin123"), Some("admin")), after, compare).status == 200
  {
    LookupAfterAppend(users, UserRow(nextId, AdminRequest(passwordHash)));
  }
}
