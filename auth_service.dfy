/**
 * The authentication service over the users table (keyed by id, unique
 * e-mail).  bcrypt and the JWT signer are not modelled: `hash`, `matches`
 * and `sign` are uninterpreted function parameters.
 */
module AuthService {
  import opened Wrappers
  import opened Entities
  import opened Schema

  /** The registration fields `register` copies onto the new row (RegisterDto is not part of this model). */
  datatype RegisterDto = RegisterDto(name: string, email: string, password: string)

  datatype LoginDto = LoginDto(email: string, password: string)

  /** The claims a token is signed over. */
  datatype TokenPayload = TokenPayload(sub: Id, email: string, role: string)

  datatype AuthResponse = AuthResponse(token: string)

  const EmailExists := Conflict("Email already exists")
  const InvalidCredentials := Unauthorized("Invalid credentials")
  const UserNotFound := Unauthorized("User not found")

  /** The claims of a stored user: its id, e-mail and role. */
  function Payload(u: User): TokenPayload {
    TokenPayload(u.id, u.email, u.role)
  }

  /** Whether some user has the e-mail. */
  ghost predicate EmailTaken(users: map<Id, User>, email: string) {
    exists k :: k in users && users[k].email == email
  }

  /** Whether some user has the e-mail and a stored hash the password matches. */
  ghost predicate Authenticates(users: map<Id, User>, email: string, password: string, matches: (string, string) -> bool) {
    exists k :: k in users && users[k].email == email && matches(password, users[k].password)
  }

  /** `findOne({ where: { email } })`: the user with that e-mail, if any. */
  method FindUserByEmail(users: map<Id, User>, email: string) returns (u: Option<User>)
    ensures u.None? <==> !EmailTaken(users, email)
    ensures u.Some? ==> exists k :: k in users && users[k] == u.value && u.value.email == email
  {
    if exists k :: k in users && users[k].email == email {
      var k :| k in users && users[k].email == email;
      u := Some(users[k]);
    } else {
      u := None;
    }
  }

  /** The row `register` inserts: the dto's name and e-mail, the hashed password, the default role. */
  function NewUser(id: Id, dto: RegisterDto, hash: string -> string): User {
    User(id, dto.email, hash(dto.password), dto.name, DefaultRole)
  }

  /**
   * Adding a user with an unused e-mail keeps e-mails unique; afterwards the
   * e-mail is taken, so registering it again is refused.
   */
  lemma RegisterAddsUniqueUser(users: map<Id, User>, id: Id, dto: RegisterDto, hash: string -> string)
    requires UserRows(users) && UniqueEmails(users) && id !in users && !EmailTaken(users, dto.email)
    ensures UserRows(users[id := NewUser(id, dto, hash)])
    ensures UniqueEmails(users[id := NewUser(id, dto, hash)])
    ensures EmailTaken(users[id := NewUser(id, dto, hash)], dto.email)
  {
    var after := users[id := NewUser(id, dto, hash)];
    assert after[id].email == dto.email;
  }

  /**
   * After registration, when the password matches its own hash, the
   * credentials pass the checks `login` makes.
   */
  lemma RegisteredUserAuthenticates(users: map<Id, User>, id: Id, dto: RegisterDto, hash: string -> string,
                                    matches: (string, string) -> bool)
    requires matches(dto.password, hash(dto.password))
    ensures Authenticates(users[id := NewUser(id, dto, hash)], dto.email, dto.password, matches)
  {
    var after := users[id := NewUser(id, dto, hash)];
    assert after[id].email == dto.email;
  }

  /**
   * `register`: Conflict when the e-mail is taken, adding nothing; otherwise
   * a new user with the hashed password and the default role, and a token
   * signed over its claims.
   */
  method Register(db: Database, dto: RegisterDto, hash: string -> string, sign: TokenPayload -> string, newId: Id)
    returns (r: Result<AuthResponse>)
    requires db.Valid() && UuidText(newId) && newId !in db.users
    modifies db
    ensures db.Valid()
    ensures r.Err? <==> EmailTaken(old(db.users), dto.email)
    ensures r.Err? ==> r == Err(EmailExists) && unchanged(db)
    ensures r.Ok? ==> db.users == old(db.users)[newId := NewUser(newId, dto, hash)]
    ensures r.Ok? ==> db.users[newId].password == hash(dto.password) && db.users[newId].role == DefaultRole
    ensures r.Ok? ==> r.value.token == sign(TokenPayload(newId, dto.email, DefaultRole))
    ensures unchanged(db`restaurants, db`menus, db`categories, db`items, db`analytics)
  {
    var existing := FindUserByEmail(db.users, dto.email);
    if existing.Some? {
      return Err(EmailExists);
    }
    var user := NewUser(newId, dto, hash);
    RegisterAddsUniqueUser(db.users, newId, dto, hash);
    db.users := db.users[newId := user];
    r := Ok(AuthResponse(sign(Payload(user))));
  }

  /**
   * `login`: the same Unauthorized error for an unknown e-mail and for a
   * password that does not match the stored hash; otherwise a token signed
   * over the stored user's claims.
   */
  method Login(users: map<Id, User>, dto: LoginDto, matches: (string, string) -> bool, sign: TokenPayload -> string)
    returns (r: Result<AuthResponse>)
    requires UniqueEmails(users)
    ensures r.Err? ==> r == Err(InvalidCredentials)
    ensures !EmailTaken(users, dto.email) ==> r.Err?
    ensures r.Ok? <==> Authenticates(users, dto.email, dto.password, matches)
    ensures r.Ok? ==> exists k :: k in users && users[k].email == dto.email && r.value.token == sign(Payload(users[k]))
  {
    var user := FindUserByEmail(users, dto.email);
    if user.None? {
      return Err(InvalidCredentials);
    }
    if !matches(dto.password, user.value.password) {
      return Err(InvalidCredentials);
    }
    r := Ok(AuthResponse(sign(Payload(user.value))));
  }

  /** The columns `validateUser` selects: everything but the password. */
  function Profile(u: User): Actor {
    Actor(u.id, u.email, u.name, u.role)
  }

  /**
   * `validateUser`: the query fails on an id that is not a uuid,
   * Unauthorized for an unknown id, otherwise the user's profile.
   */
  function ValidateUser(users: map<Id, User>, id: Id): (r: Result<Actor>)
    ensures r == Err(DatabaseError) <==> !UuidText(id)
    ensures r == Err(UserNotFound) <==> UuidText(id) && id !in users
    ensures r.Ok? <==> UuidText(id) && id in users
    ensures r.Ok? ==>
      r.value.id == users[id].id && r.value.email == users[id].email && r.value.name == users[id].name && r.value.role == users[id].role
  {
    if !UuidText(id) then Err(DatabaseError)
    else if id !in users then Err(UserNotFound)
    else Ok(Profile(users[id]))
  }

  /** The actor `validateUser` yields for a stored user is the one `findOne` checks ownership against. */
  lemma ValidatedActorOwns(users: map<Id, User>, id: Id, restaurant: Restaurant)
    requires UserRows(users) && UuidKeys(users) && id in users
    ensures ValidateUser(users, id).Ok?
    ensures MayAccess(restaurant, ValidateUser(users, id).value) <==> restaurant.userId == id || users[id].role == AdminRole
  {
  }
}
