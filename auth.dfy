/**
 * The authentication layer: `login`, which checks an email and the unsalted
 * hash of a password against the user table and issues a signed token, and
 * the guard `authValidator(role)`, a short-circuiting chain
 * token -> verify -> user lookup -> role threshold.
 *
 * The hash, the token signer and the token verifier are parameters of the
 * model (any functions at all); so is the signing secret. The user table is
 * a sequence; the store's queries name no order, and the model fixes one:
 * a lookup returns the first matching row of the sequence.
 */
module Auth {
  import opened Options

  // Reasons, exactly as the controller writes them.
  const NoToken := "No token provided."
  const BadToken := "Failed to authenticate token."
  const Denied := "Permission denied."
  const BadCredentials := "Missing or invalid authentication credentials."

  /** The threshold of `authValidator()` called without an argument. */
  const DefaultRole := 0

  datatype User = User(id: int, email: string, password: string, role: int)

  /** A token claim value; a decoded token is a map from claim name to value. */
  datatype Claim = Text(text: string) | Number(n: int)

  type Claims = map<string, Claim>

  /** Where a token may arrive: body field `token`, query parameter `token`, header `x-auth-token`. */
  datatype Request = Request(body: Option<string>, query: Option<string>, header: Option<string>)

  /** The guard's outcome: proceed with `req.user` set, or answer with a status and a reason. */
  datatype Decision = Allow(user: User) | Deny(status: int, reason: string)

  datatype LoginReply = LoggedIn(id: int, token: string) | LoginFailed(reason: string)

  /** JavaScript truthiness of an optional string field: missing and "" are both absent. */
  predicate Present(v: Option<string>) {
    v.Some? && v.value != ""
  }

  function Sources(req: Request): seq<Option<string>> {
    [req.body, req.query, req.header]
  }

  /** `body.token || query.token || headers['x-auth-token']`: the first present source, in that order. */
  function PickToken(req: Request): (r: Option<string>)
    ensures r.Some? <==> exists i :: 0 <= i < 3 && Present(Sources(req)[i])
    ensures r.Some? ==> exists i :: 0 <= i < 3 && Present(Sources(req)[i]) && r == Sources(req)[i] &&
                                    forall j :: 0 <= j < i ==> !Present(Sources(req)[j])
  {
    var src := Sources(req);
    if Present(req.body) then
      assert Present(src[0]);
      req.body
    else if Present(req.query) then
      assert Present(src[1]);
      req.query
    else if Present(req.header) then
      assert Present(src[2]);
      req.header
    else
      None
  }

  /**
   * The decision chain of the guard, for a verifier and a user lookup given
   * as functions: no token, a token that does not verify, a subject that
   * does not resolve, a role below the threshold, or allow.
   */
  function Gate(req: Request, role: int, secret: string,
                verify: (string, string) -> Option<Claims>,
                lookup: Claims -> Option<User>): (d: Decision)
    ensures d.Allow? ==> role <= d.user.role
    ensures d.Allow? ==> exists c :: lookup(c) == Some(d.user)
    ensures d.Deny? ==> (d.status == 400 <==> PickToken(req).None?)
    ensures d.Deny? ==> d.status in {400, 401}
  {
    match PickToken(req)
    case None => Deny(400, NoToken)
    case Some(token) =>
      match verify(token, secret)
      case None => Deny(401, BadToken)
      case Some(claims) =>
        match lookup(claims)
        case None => Deny(401, BadToken)
        case Some(user) => if user.role < role then Deny(401, Denied) else Allow(user)
  }

  /** Allow is reached exactly when a token is present, verifies, resolves to a user and that user meets the threshold. */
  lemma GateAllowsExactly(req: Request, role: int, secret: string,
                          verify: (string, string) -> Option<Claims>,
                          lookup: Claims -> Option<User>, u: User)
    ensures Gate(req, role, secret, verify, lookup) == Allow(u) <==>
              && PickToken(req).Some?
              && verify(PickToken(req).value, secret).Some?
              && lookup(verify(PickToken(req).value, secret).value) == Some(u)
              && role <= u.role
  {
  }

  /** Without a token the answer is 400, whatever the verifier and the lookup would do: neither is consulted. */
  lemma NoTokenShortCircuits(req: Request, role: int,
                             secret1: string, verify1: (string, string) -> Option<Claims>, lookup1: Claims -> Option<User>,
                             secret2: string, verify2: (string, string) -> Option<Claims>, lookup2: Claims -> Option<User>)
    requires !Present(req.body) && !Present(req.query) && !Present(req.header)
    ensures Gate(req, role, secret1, verify1, lookup1) == Deny(400, NoToken)
    ensures Gate(req, role, secret1, verify1, lookup1) == Gate(req, role, secret2, verify2, lookup2)
  {
  }

  /** A token that does not verify is refused with 401 before any lookup: the lookup does not matter. */
  lemma BadSignatureSkipsLookup(req: Request, role: int, secret: string,
                                verify: (string, string) -> Option<Claims>,
                                lookup1: Claims -> Option<User>, lookup2: Claims -> Option<User>)
    requires PickToken(req).Some? && verify(PickToken(req).value, secret).None?
    ensures Gate(req, role, secret, verify, lookup1) == Deny(401, BadToken)
    ensures Gate(req, role, secret, verify, lookup1) == Gate(req, role, secret, verify, lookup2)
  {
  }

  /** A verified token whose subject does not resolve gets the very answer a bad signature gets. */
  lemma UnknownSubjectLooksLikeBadSignature(req: Request, role: int, secret: string,
                                            verify: (string, string) -> Option<Claims>,
                                            lookup: Claims -> Option<User>,
                                            forged: (string, string) -> Option<Claims>)
    requires PickToken(req).Some?
    requires verify(PickToken(req).value, secret).Some?
    requires lookup(verify(PickToken(req).value, secret).value).None?
    requires forged(PickToken(req).value, secret).None?
    ensures Gate(req, role, secret, verify, lookup) == Gate(req, role, secret, forged, lookup) == Deny(401, BadToken)
  {
  }

  /** A resolved user below the threshold is refused with 401 "Permission denied.". */
  lemma BelowThresholdDenied(req: Request, role: int, secret: string,
                             verify: (string, string) -> Option<Claims>,
                             lookup: Claims -> Option<User>)
    requires PickToken(req).Some? && verify(PickToken(req).value, secret).Some?
    requires lookup(verify(PickToken(req).value, secret).value).Some?
    ensures Gate(req, role, secret, verify, lookup) == Deny(401, Denied) <==>
              lookup(verify(PickToken(req).value, secret).value).value.role < role
  {
  }

  /** Lowering the threshold never turns an allowed request away. */
  lemma ThresholdMonotone(req: Request, low: int, high: int, secret: string,
                          verify: (string, string) -> Option<Claims>,
                          lookup: Claims -> Option<User>)
    requires low <= high
    requires Gate(req, high, secret, verify, lookup).Allow?
    ensures Gate(req, low, secret, verify, lookup) == Gate(req, high, secret, verify, lookup)
  {
  }

  /** `role = 0`: the threshold when `authValidator` is called without one. */
  function Threshold(role: Option<int>): (r: int)
    ensures role.None? ==> r == DefaultRole
    ensures role.Some? ==> r == role.value
  {
    if role.Some? then role.value else DefaultRole
  }

  /** The first user row with this email and password hash. */
  function FindByCredentials(users: seq<User>, email: string, hash: string): (r: Option<User>)
    ensures r.None? <==> forall u :: u in users ==> !(u.email == email && u.password == hash)
    ensures r.Some? ==> exists k :: 0 <= k < |users| && users[k] == r.value &&
                                    r.value.email == email && r.value.password == hash &&
                                    forall j :: 0 <= j < k ==> !(users[j].email == email && users[j].password == hash)
  {
    if users == [] then None
    else if users[0].email == email && users[0].password == hash then
      Some(users[0])
    else
      var rest := FindByCredentials(users[1..], email, hash);
      assert forall u :: u in users ==> u == users[0] || u in users[1..];
      if rest.Some? then
        var k :| 0 <= k < |users[1..]| && users[1..][k] == rest.value &&
                 rest.value.email == email && rest.value.password == hash &&
                 forall j :: 0 <= j < k ==> !(users[1..][j].email == email && users[1..][j].password == hash);
        assert users[k + 1] == rest.value;
        assert forall j :: 1 <= j < k + 1 ==> users[j] == users[1..][j - 1];
        rest
      else
        rest
  }

  /** The claims `login` signs: the email and the password hash, and nothing else. */
  function LoginClaims(email: string, hash: string): (c: Claims)
    ensures c.Keys == {"email", "password"}
    ensures c["email"] == Text(email) && c["password"] == Text(hash)
  {
    map["email" := Text(email), "password" := Text(hash)]
  }

  /** Registered claim names a signer may add on its own (jsonwebtoken adds `iat` by default). */
  const Registered: set<string> := {"iat", "exp", "nbf", "iss", "sub", "aud", "jti"}

  /** What verifying a token signed over `signed` may give back: every signed claim unchanged, plus registered ones. */
  predicate Carries(decoded: Claims, signed: Claims) {
    && (forall k :: k in signed ==> k in decoded && decoded[k] == signed[k])
    && (forall k :: k in decoded && k !in signed ==> k in Registered)
  }

  /**
   * login: hash the password, look the pair up, and on a match answer with
   * the user's id and a token signed over {email, password: hash}.
   */
  function Login(users: seq<User>, email: string, password: string,
                 md5: string -> string, sign: (Claims, string) -> string, secret: string): (r: LoginReply)
    ensures r.LoggedIn? <==> exists u :: u in users && u.email == email && u.password == md5(password)
    ensures r.LoginFailed? ==> r.reason == BadCredentials
    ensures r.LoggedIn? ==> r.token == sign(LoginClaims(email, md5(password)), secret)
    ensures r.LoggedIn? ==> exists u :: u in users && u.id == r.id && u.email == email && u.password == md5(password)
  {
    var hash := md5(password);
    match FindByCredentials(users, email, hash)
    case None => LoginFailed(BadCredentials)
    case Some(user) => LoggedIn(user.id, sign(LoginClaims(email, hash), secret))
  }

  /** Every failed login looks alike: an unknown email and a wrong password give the same answer. */
  lemma LoginFailuresIdentical(users: seq<User>, md5: string -> string, sign: (Claims, string) -> string, secret: string,
                               email1: string, password1: string, email2: string, password2: string)
    requires Login(users, email1, password1, md5, sign, secret).LoginFailed?
    requires Login(users, email2, password2, md5, sign, secret).LoginFailed?
    ensures Login(users, email1, password1, md5, sign, secret) == Login(users, email2, password2, md5, sign, secret)
  {
  }

  /**
   * The lookup as written (components/user/auth.controller.js:49-53): the filter is passed
   * under `when`, an option the store does not read, so the query carries no
   * condition and yields the first user row, whatever the claims say.
   */
  function ResolveAsWritten(users: seq<User>, claims: Claims): (r: Option<User>)
    ensures r.None? <==> users == []
    ensures r.Some? ==> r.value == users[0]
  {
    if users == [] then None else Some(users[0])
  }

  /** The first user row with this id. */
  function FindById(users: seq<User>, id: int): (r: Option<User>)
    ensures r.None? <==> forall u :: u in users ==> u.id != id
    ensures r.Some? ==> r.value in users && r.value.id == id
  {
    if users == [] then None
    else if users[0].id == id then Some(users[0])
    else
      assert forall u :: u in users ==> u == users[0] || u in users[1..];
      FindById(users[1..], id)
  }

  /** The lookup the code evidently meant to make by `decoded._id`, were the filter applied. */
  function ResolveByIdClaim(users: seq<User>, claims: Claims): (r: Option<User>)
    ensures r.Some? ==> "_id" in claims && claims["_id"] == Number(r.value.id) && r.value in users
    ensures r.None? <==> !("_id" in claims && exists u :: u in users && claims["_id"] == Number(u.id))
  {
    if "_id" in claims && claims["_id"].Number? then FindById(users, claims["_id"].n) else None
  }

  /** The corrected lookup: resolve the subject from the very claims `login` signs. */
  function Resolve(users: seq<User>, claims: Claims): (r: Option<User>)
    ensures r.Some? ==> r.value in users && "email" in claims && "password" in claims &&
                        claims["email"] == Text(r.value.email) && claims["password"] == Text(r.value.password)
    ensures r.None? <==> !("email" in claims && "password" in claims &&
                           exists u :: u in users && claims["email"] == Text(u.email) && claims["password"] == Text(u.password))
  {
    if "email" in claims && claims["email"].Text? && "password" in claims && claims["password"].Text? then
      FindByCredentials(users, claims["email"].text, claims["password"].text)
    else
      None
  }

  /** authValidator(role) as written: the decision chain over the unfiltered lookup. */
  function AuthValidatorAsWritten(role: Option<int>, secret: string, verify: (string, string) -> Option<Claims>,
                                  users: seq<User>, req: Request): (d: Decision)
    ensures d.Allow? ==> users != [] && d.user == users[0] && Threshold(role) <= d.user.role
  {
    var lookup := (c: Claims) => ResolveAsWritten(users, c);
    assert forall c :: lookup(c) == ResolveAsWritten(users, c);
    Gate(req, Threshold(role), secret, verify, lookup)
  }

  /** authValidator(role) with the corrected lookup. */
  function AuthValidator(role: Option<int>, secret: string, verify: (string, string) -> Option<Claims>,
                         users: seq<User>, req: Request): (d: Decision)
    ensures d.Allow? ==> d.user in users && Threshold(role) <= d.user.role
  {
    var lookup := (c: Claims) => Resolve(users, c);
    assert forall c :: lookup(c) == Resolve(users, c);
    Gate(req, Threshold(role), secret, verify, lookup)
  }

  /** A token that `login` issues never carries an `_id` claim. */
  lemma IdClaimNeverIssued(email: string, hash: string)
    ensures "_id" !in LoginClaims(email, hash)
  {
  }

  /**
   * With the filter applied as `{id: decoded._id}`, no token `login` issues
   * would ever pass the guard: each one is refused as unauthenticated.
   */
  lemma IdLookupRejectsLoginTokens(users: seq<User>, email: string, password: string, role: int,
                                   md5: string -> string, sign: (Claims, string) -> string,
                                   verify: (string, string) -> Option<Claims>, secret: string, decoded: Claims)
    requires Login(users, email, password, md5, sign, secret).LoggedIn?
    requires Login(users, email, password, md5, sign, secret).token != ""
    requires verify(sign(LoginClaims(email, md5(password)), secret), secret) == Some(decoded)
    requires Carries(decoded, LoginClaims(email, md5(password)))
    ensures Gate(Request(Some(Login(users, email, password, md5, sign, secret).token), None, None), role, secret, verify,
                 (c: Claims) => ResolveByIdClaim(users, c)) == Deny(401, BadToken)
  {
    IdClaimNeverIssued(email, md5(password));
    assert "_id" !in decoded;
  }

  /**
   * As written, the guard lets anyone with a verifying token act as the
   * first user row: a role-0 user's token passes a role-1 guard as the
   * administrator. The corrected guard denies it.
   */
  lemma UnfilteredLookupEscalates(token: string, secret: string, verify: (string, string) -> Option<Claims>, decoded: Claims)
    requires token != ""
    requires verify(token, secret) == Some(decoded) && Carries(decoded, LoginClaims("bob@example.com", "b0b"))
    ensures AuthValidatorAsWritten(Some(1), secret, verify,
              [User(1, "admin@example.com", "4dm1n", 1), User(2, "bob@example.com", "b0b", 0)],
              Request(Some(token), None, None)) == Allow(User(1, "admin@example.com", "4dm1n", 1))
    ensures AuthValidator(Some(1), secret, verify,
              [User(1, "admin@example.com", "4dm1n", 1), User(2, "bob@example.com", "b0b", 0)],
              Request(Some(token), None, None)) == Deny(401, Denied)
  {
    var users := [User(1, "admin@example.com", "4dm1n", 1), User(2, "bob@example.com", "b0b", 0)];
    assert users[1..] == [User(2, "bob@example.com", "b0b", 0)];
    assert FindByCredentials(users, "bob@example.com", "b0b") == Some(users[1]);
  }

  /**
   * Login and the corrected guard agree: a token `login` issues, presented
   * in any source, resolves to the user `login` matched (the one whose id it
   * returned), who is then allowed exactly when the role suffices.
   */
  lemma LoginTokenResolves(users: seq<User>, email: string, password: string, role: Option<int>,
                           md5: string -> string, sign: (Claims, string) -> string,
                           verify: (string, string) -> Option<Claims>, secret: string, req: Request, decoded: Claims)
    requires Login(users, email, password, md5, sign, secret).LoggedIn?
    requires PickToken(req) == Some(Login(users, email, password, md5, sign, secret).token)
    requires verify(sign(LoginClaims(email, md5(password)), secret), secret) == Some(decoded)
    requires Carries(decoded, LoginClaims(email, md5(password)))
    ensures var u := FindByCredentials(users, email, md5(password)).value;
            && u.id == Login(users, email, password, md5, sign, secret).id
            && AuthValidator(role, secret, verify, users, req) ==
               (if u.role < Threshold(role) then Deny(401, Denied) else Allow(u))
  {
  }

  /**
   * The corrected guard admits any verifying token whose email and password
   * claims name a row of the table, not only tokens `login` issued: the
   * request goes on as the row found, exactly when its role suffices.
   */
  lemma MatchingClaimsResolve(role: Option<int>, secret: string, verify: (string, string) -> Option<Claims>,
                              users: seq<User>, req: Request, claims: Claims, u: User)
    requires PickToken(req).Some? && verify(PickToken(req).value, secret) == Some(claims)
    requires u in users && "email" in claims && "password" in claims
    requires claims["email"] == Text(u.email) && claims["password"] == Text(u.password)
    ensures Resolve(users, claims).Some?
    ensures AuthValidator(role, secret, verify, users, req) ==
              (if Resolve(users, claims).value.role < Threshold(role) then Deny(401, Denied)
               else Allow(Resolve(users, claims).value))
  {
  }

  /** A valid token for a role-0 user is denied by a role-1 guard and admitted by the default guard. */
  lemma RoleZeroUser(req: Request, secret: string, verify: (string, string) -> Option<Claims>,
                     users: seq<User>, claims: Claims, u: User)
    requires PickToken(req).Some? && verify(PickToken(req).value, secret) == Some(claims)
    requires Resolve(users, claims) == Some(u) && u.role == 0
    ensures AuthValidator(Some(1), secret, verify, users, req) == Deny(401, Denied)
    ensures AuthValidator(None, secret, verify, users, req) == Allow(u)
    ensures AuthValidator(Some(0), secret, verify, users, req) == Allow(u)
  {
  }
}
