/** The account handlers: register, login and `/current`. The users
    collection is a map from email to user (every lookup in these handlers
    is `User.findOne({ email })`). bcrypt, jsonwebtoken and gravatar are
    foreign libraries: the model takes them as arbitrary functions, bundled
    in a `Crypto` value, and proves nothing about what they compute. */
module UserRoutes {
  import opened Http

  datatype User = User(id: string, name: string, email: string, avatar: string, password: string)

  datatype RegisterRequest = RegisterRequest(name: string, email: string, password: string)

  datatype LoginRequest = LoginRequest(email: string, password: string)

  /** The JWT payload: exactly `{ id, name, avatar }`. */
  datatype Claims = Claims(id: string, name: string, avatar: string)

  /** The options passed to `gravatar.url`. */
  datatype GravatarOptions = GravatarOptions(size: string, rating: string, default: string)

  /** The options passed to `jwt.sign`. */
  datatype SignOptions = SignOptions(expiresIn: nat)

  /** The successful login body `{ success, token }`. */
  datatype LoginBody = LoginBody(success: bool, token: string)

  /** The `/current` body `{ name, id, email }`. */
  datatype CurrentBody = CurrentBody(name: string, id: string, email: string)

  /** The foreign libraries, uninterpreted. */
  datatype Crypto = Crypto(
    hash: (string, string) -> string,               // bcrypt.hash(plain, salt)
    compare: (string, string) -> bool,              // bcrypt.compare(plain, hashed)
    sign: (Claims, string, SignOptions) -> string,  // jwt.sign(payload, secret, options)
    gravatarUrl: (string, GravatarOptions) -> string)

  const AVATAR_OPTIONS := GravatarOptions("100", "pg", "mm")
  const TOKEN_OPTIONS := SignOptions(7200)
  const BEARER := "Bearer "

  const EMAIL_EXISTS := map["email" := "Email already exitsts."]
  const USER_NOT_FOUND := map["email" := "User not found"]
  const PASSWORD_MISMATCH := map["password" := "Pawword does not match!"]

  /** The payload signed into the token. */
  function PayloadOf(u: User): Claims {
    Claims(u.id, u.name, u.avatar)
  }

  /** The token the login route hands out for user `u`. */
  function TokenFor(crypto: Crypto, secretKey: string, u: User): string {
    BEARER + crypto.sign(PayloadOf(u), secretKey, TOKEN_OPTIONS)
  }

  /** POST /api/users/login: unknown email (404), password mismatch (400), or a
      bearer token over the matched user's payload. */
  function Login(users: map<string, User>, crypto: Crypto, secretKey: string, req: LoginRequest)
    : (r: Reply<LoginBody>)
    ensures r == Err(404, USER_NOT_FOUND) <==> req.email !in users
    ensures r == Err(400, PASSWORD_MISMATCH) <==>
              req.email in users && !crypto.compare(req.password, users[req.email].password)
    ensures r.Ok? <==> req.email in users && crypto.compare(req.password, users[req.email].password)
    ensures r.Ok? ==> r.body == LoginBody(true, TokenFor(crypto, secretKey, users[req.email]))
  {
    if req.email !in users then Err(404, USER_NOT_FOUND)
    else
      var user := users[req.email];
      if crypto.compare(req.password, user.password) then
        Ok(LoginBody(true, BEARER + crypto.sign(Claims(user.id, user.name, user.avatar), secretKey, TOKEN_OPTIONS)))
      else Err(400, PASSWORD_MISMATCH)
  }

  /** GET /api/users/current: the authenticated user's name, id and email. */
  function Current(u: User): CurrentBody {
    CurrentBody(u.name, u.id, u.email)
  }

  /** The user record `Register` saves for a new email. */
  function NewUser(crypto: Crypto, req: RegisterRequest, newId: string, salt: string): User {
    User(newId, req.name, req.email, crypto.gravatarUrl(req.email, AVATAR_OPTIONS), crypto.hash(req.password, salt))
  }

  /** Signing up and then logging in with the same password succeeds, as long
      as bcrypt accepts a password against its own hash, and the token carries
      the new account's id, name and avatar. */
  lemma RegisterThenLogin(users: map<string, User>, crypto: Crypto, secretKey: string,
                          req: RegisterRequest, newId: string, salt: string)
    requires req.email !in users
    requires crypto.compare(req.password, crypto.hash(req.password, salt))
    ensures var u := NewUser(crypto, req, newId, salt);
            Login(users[req.email := u], crypto, secretKey, LoginRequest(req.email, req.password))
            == Ok(LoginBody(true, BEARER + crypto.sign(Claims(newId, req.name, u.avatar), secretKey, TOKEN_OPTIONS)))
  {
  }

  /** Registering one account does not change how any other email logs in. */
  lemma RegisterKeepsOtherLogins(users: map<string, User>, crypto: Crypto, secretKey: string,
                                 req: RegisterRequest, newId: string, salt: string, other: LoginRequest)
    requires req.email !in users
    requires other.email != req.email
    ensures Login(users[req.email := NewUser(crypto, req, newId, salt)], crypto, secretKey, other)
            == Login(users, crypto, secretKey, other)
  {
  }

  /** Every user is stored under its own email, so no two users share one. */
  ghost predicate KeyedByEmail(users: map<string, User>) {
    forall e :: e in users ==> users[e].email == e
  }

  /** After a successful login, `/current` for the logged-in user reports the
      email that was used, and the id and name it reports are the ones signed
      into the issued token. */
  lemma CurrentMatchesLogin(users: map<string, User>, crypto: Crypto, secretKey: string, req: LoginRequest)
    requires KeyedByEmail(users)
    requires Login(users, crypto, secretKey, req).Ok?
    ensures var c := Current(users[req.email]);
            && c.email == req.email
            && Login(users, crypto, secretKey, req).body.token
               == BEARER + crypto.sign(Claims(c.id, c.name, users[req.email].avatar), secretKey, TOKEN_OPTIONS)
  {
  }

  /** The users collection. */
  class UserStore {
    var users: map<string, User>

    ghost predicate Valid()
      reads this
    {
      KeyedByEmail(users)
    }

    constructor ()
      ensures Valid() && users == map[]
    {
      users := map[];
    }

    /** POST /api/users/register: reject a taken email; otherwise build the
        user with the plaintext password, overwrite it with its salted hash and
        save. The reply is the saved record. `newId` is the ObjectId Mongoose
        assigns, `salt` what `bcrypt.genSalt(10)` produced. */
    method Register(crypto: Crypto, req: RegisterRequest, newId: string, salt: string)
      returns (r: Reply<User>)
      requires Valid()
      modifies this
      ensures Valid()
      ensures req.email in old(users) ==> r == Err(400, EMAIL_EXISTS) && users == old(users)
      ensures req.email !in old(users) ==>
        var u := NewUser(crypto, req, newId, salt);
        r == Ok(u) && users == old(users)[req.email := u]
    {
      if req.email in users {
        return Err(400, EMAIL_EXISTS);
      }
      var avatar := crypto.gravatarUrl(req.email, AVATAR_OPTIONS);
      var newUser := User(newId, req.name, req.email, avatar, req.password);
      var hash := crypto.hash(newUser.password, salt);
      newUser := newUser.(password := hash);
      users := users[req.email := newUser];
      r := Ok(newUser);
    }
  }
}
