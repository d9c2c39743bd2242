/**
 * The auth router (`auth.js`): signup and login over the `users` relation.
 * bcrypt and jsonwebtoken are left uninterpreted: the handlers receive them as
 * the fields of a `Crypto` value, and the only fact assumed of them is that a
 * digest made from a password verifies against that password. The random salt
 * and the clock are parameters; `fault` stands for a driver error (500).
 */
module Auth {
  import opened Wrappers

  const JwtSecret := "TARUN_SECRET"
  /** `bcrypt.hash(password, 10)`. */
  const SaltRounds := 10
  /** `expiresIn: '2h'`, in seconds. */
  const TokenLifetime := 7200

  const FieldsRequired := "All fields required"
  const EmailRegistered := "Email already registered"
  const CredentialsRequired := "Email and password required"
  const InvalidCredentials := "Invalid credentials"

  /** A `users` row; `password` holds the bcrypt digest. */
  datatype User = User(name: string, email: string, password: string)

  datatype Users = Users(rows: map<int, User>, nextId: int)

  /** Serial ids below `nextId`, and no email registered twice. */
  ghost predicate Valid(u: Users) {
    && u.nextId >= 1
    && (forall id :: id in u.rows ==> 1 <= id < u.nextId)
    && (forall i, j :: i in u.rows && j in u.rows && u.rows[i].email == u.rows[j].email ==> i == j)
  }

  /** The payload jwt.sign embeds: the two claims given plus `iat` and `exp` in seconds. */
  datatype Claims = Claims(userId: int, email: string, iat: int, exp: int)

  datatype Crypto = Crypto(
    hash: (string, nat, nat) -> string,  // bcrypt.hash(password, rounds), the salt made explicit
    compare: (string, string) -> bool,   // bcrypt.compare(password, digest)
    sign: (Claims, string) -> string)    // jwt.sign(claims, secret)

  /** A digest made from a password verifies against that password. */
  ghost predicate Sound(c: Crypto) {
    forall pw: string, rounds: nat, salt: nat :: c.compare(pw, c.hash(pw, rounds, salt))
  }

  /** Request bodies; `None` is a missing or null member. Non-string JSON values are not modelled. */
  datatype SignupBody = SignupBody(name: Option<string>, email: Option<string>, password: Option<string>)
  datatype LoginBody = LoginBody(email: Option<string>, password: Option<string>)

  /** JavaScript truthiness of a string member: present and not empty. */
  predicate Truthy(f: Option<string>) {
    f.Some? && f.value != ""
  }

  /** The public fields of a user: never the digest. */
  datatype Profile = Profile(id: int, name: string, email: string)

  datatype Payload =
    | Created(user: Profile)                 // { id, name, email }
    | Session(token: string, user: Profile)  // { token, user: { id, name, email } }
    | Error(error: string)
    | StoreFailure

  datatype Response = Response(status: int, payload: Payload)

  const ServerError := Response(500, StoreFailure)

  datatype Step = Step(users: Users, response: Response)

  /** `SELECT * FROM users WHERE email = $1` returns at least one row. */
  predicate EmailTaken(u: Users, email: string) {
    exists id :: id in u.rows && u.rows[id].email == email
  }

  /** The first id in [lo, hi) whose row has this email. */
  function FindFrom(rows: map<int, User>, email: string, lo: int, hi: int): (r: Option<int>)
    ensures r.Some? ==> lo <= r.value < hi && r.value in rows && rows[r.value].email == email
    ensures r.Some? ==> forall id :: lo <= id < r.value && id in rows ==> rows[id].email != email
    ensures r.None? ==> forall id :: lo <= id < hi && id in rows ==> rows[id].email != email
    decreases hi - lo
  {
    if hi <= lo then None
    else if lo in rows && rows[lo].email == email then Some(lo)
    else FindFrom(rows, email, lo + 1, hi)
  }

  /** `userRes.rows[0]` of the login query: the row with that email, which is unique in a valid table. */
  function Find(u: Users, email: string): (r: Option<int>)
    ensures r.Some? ==> r.value in u.rows && u.rows[r.value].email == email
    ensures Valid(u) ==> (r.None? <==> !EmailTaken(u, email))
    ensures Valid(u) ==> forall id :: id in u.rows && u.rows[id].email == email ==> r == Some(id)
  {
    FindFrom(u.rows, email, 1, u.nextId)
  }

  /** POST /auth/signup */
  function Signup(u: Users, body: SignupBody, c: Crypto, salt: nat, fault: bool): (s: Step)
    ensures !(Truthy(body.name) && Truthy(body.email) && Truthy(body.password)) ==>
      s == Step(u, Response(400, Error(FieldsRequired)))
    ensures Truthy(body.name) && Truthy(body.email) && Truthy(body.password) && fault ==>
      s == Step(u, ServerError)
    ensures Truthy(body.name) && Truthy(body.email) && Truthy(body.password) && !fault && EmailTaken(u, body.email.value) ==>
      s == Step(u, Response(400, Error(EmailRegistered)))
    ensures Truthy(body.name) && Truthy(body.email) && Truthy(body.password) && !fault && !EmailTaken(u, body.email.value) ==>
      && s.users.nextId == u.nextId + 1
      && s.users.rows == u.rows[u.nextId := User(body.name.value, body.email.value, c.hash(body.password.value, SaltRounds, salt))]
      && s.response == Response(201, Created(Profile(u.nextId, body.name.value, body.email.value)))
    ensures s.response.status == 201 <==> s.users != u
    ensures Valid(u) ==> Valid(s.users)
  {
    if !(Truthy(body.name) && Truthy(body.email) && Truthy(body.password)) then
      Step(u, Response(400, Error(FieldsRequired)))
    else if fault then Step(u, ServerError)
    else if EmailTaken(u, body.email.value) then Step(u, Response(400, Error(EmailRegistered)))
    else
      var user := User(body.name.value, body.email.value, c.hash(body.password.value, SaltRounds, salt));
      assert u.nextId in u.rows[u.nextId := user];
      Step(Users(u.rows[u.nextId := user], u.nextId + 1), Response(201, Created(Profile(u.nextId, user.name, user.email))))
  }

  /** POST /auth/login: reads the table and never changes it. */
  function Login(u: Users, body: LoginBody, c: Crypto, now: int, fault: bool): (r: Response)
    ensures !(Truthy(body.email) && Truthy(body.password)) ==> r == Response(400, Error(CredentialsRequired))
    ensures Truthy(body.email) && Truthy(body.password) && fault ==> r == ServerError
    ensures r.status == 200 ==>
      && Truthy(body.email) && Truthy(body.password) && !fault
      && r.payload.Session?
      && var id := r.payload.user.id;
         && id in u.rows
         && u.rows[id].email == body.email.value
         && c.compare(body.password.value, u.rows[id].password)
         && r.payload.user == Profile(id, u.rows[id].name, u.rows[id].email)
         && r.payload.token == c.sign(Claims(id, u.rows[id].email, now, now + TokenLifetime), JwtSecret)
    ensures Truthy(body.email) && Truthy(body.password) && !fault && r.status != 200 ==>
      r == Response(400, Error(InvalidCredentials))
    ensures Truthy(body.email) && Truthy(body.password) && !fault && !EmailTaken(u, body.email.value) ==>
      r == Response(400, Error(InvalidCredentials))
    ensures r.status in {200, 400, 500}
  {
    if !(Truthy(body.email) && Truthy(body.password)) then Response(400, Error(CredentialsRequired))
    else if fault then ServerError
    else match Find(u, body.email.value)
      case None => Response(400, Error(InvalidCredentials))
      case Some(id) =>
        var user := u.rows[id];
        if !c.compare(body.password.value, user.password) then Response(400, Error(InvalidCredentials))
        else
          var token := c.sign(Claims(id, user.email, now, now + TokenLifetime), JwtSecret);
          Response(200, Session(token, Profile(id, user.name, user.email)))
  }

  /** Login succeeds exactly when a user has that email and the password verifies against the stored digest. */
  lemma LoginSucceedsIff(u: Users, body: LoginBody, c: Crypto, now: int, fault: bool)
    requires Valid(u)
    ensures Login(u, body, c, now, fault).status == 200 <==>
      && Truthy(body.email) && Truthy(body.password) && !fault
      && exists id :: id in u.rows && u.rows[id].email == body.email.value && c.compare(body.password.value, u.rows[id].password)
  {
  }

  /**
   * No user enumeration: an unknown email and a known email with a wrong
   * password get the same response.
   */
  lemma UnknownEmailLooksLikeWrongPassword(u: Users, c: Crypto, now: int, e1: string, p1: string, e2: string, p2: string, id: int)
    requires Valid(u)
    requires e1 != "" && p1 != "" && e2 != "" && p2 != ""
    requires !EmailTaken(u, e1)
    requires id in u.rows && u.rows[id].email == e2 && !c.compare(p2, u.rows[id].password)
    ensures Login(u, LoginBody(Some(e1), Some(p1)), c, now, false) == Response(400, Error(InvalidCredentials))
    ensures Login(u, LoginBody(Some(e1), Some(p1)), c, now, false) == Login(u, LoginBody(Some(e2), Some(p2)), c, now, false)
  {
  }

  /** After a successful signup, logging in with the same email and password yields a token for the new user. */
  lemma SignupThenLogin(u: Users, name: string, email: string, pw: string, c: Crypto, salt: nat, now: int)
    requires Valid(u) && Sound(c)
    requires name != "" && email != "" && pw != ""
    requires !EmailTaken(u, email)
    ensures var s := Signup(u, SignupBody(Some(name), Some(email), Some(pw)), c, salt, false);
      && s.response == Response(201, Created(Profile(u.nextId, name, email)))
      && Login(s.users, LoginBody(Some(email), Some(pw)), c, now, false)
         == Response(200, Session(c.sign(Claims(u.nextId, email, now, now + TokenLifetime), JwtSecret), Profile(u.nextId, name, email)))
  {
    var s := Signup(u, SignupBody(Some(name), Some(email), Some(pw)), c, salt, false);
    assert s.users.rows[u.nextId].email == email;
    assert Find(s.users, email) == Some(u.nextId);
    assert c.compare(pw, c.hash(pw, SaltRounds, salt));
  }

  /** A second signup with an email already registered fails and changes nothing, whatever its name and password. */
  lemma SecondSignupRejected(u: Users, b1: SignupBody, b2: SignupBody, c: Crypto, salt1: nat, salt2: nat)
    requires Signup(u, b1, c, salt1, false).response.status == 201
    requires Truthy(b2.name) && Truthy(b2.password) && b2.email == b1.email
    ensures var s := Signup(u, b1, c, salt1, false);
      Signup(s.users, b2, c, salt2, false) == Step(s.users, Response(400, Error(EmailRegistered)))
  {
    var s := Signup(u, b1, c, salt1, false);
    assert s.users.rows[u.nextId].email == b1.email.value;
  }

  /** The live `users` table. */
  class UsersDb {
    var rows: map<int, User>
    var nextId: int

    constructor ()
      ensures State() == Users(map[], 1) && Valid(State())
    {
      rows := map[];
      nextId := 1;
    }

    function State(): Users
      reads this
    {
      Users(rows, nextId)
    }
  }

  method HandleSignup(db: UsersDb, body: SignupBody, c: Crypto, salt: nat, fault: bool) returns (resp: Response)
    modifies db
    ensures Step(db.State(), resp) == Signup(old(db.State()), body, c, salt, fault)
  {
    if !(Truthy(body.name) && Truthy(body.email) && Truthy(body.password)) {
      resp := Response(400, Error(FieldsRequired));
      return;
    }
    if fault {
      resp := ServerError;
      return;
    }
    var name, email, password := body.name.value, body.email.value, body.password.value;
    if EmailTaken(db.State(), email) {
      resp := Response(400, Error(EmailRegistered));
      return;
    }
    var digest := c.hash(password, SaltRounds, salt);
    var id := db.nextId;
    db.rows := db.rows[id := User(name, email, digest)];
    db.nextId := id + 1;
    resp := Response(201, Created(Profile(id, name, email)));
  }
}
