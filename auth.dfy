/**
 * The authorization gate (`authMiddleware`) and the `/login` decision. The
 * JSON Web Token library and the password comparison of the user model are
 * foreign code; they enter as function parameters.
 */
module Auth {
  import opened Wrappers
  import opened Api
  import opened Bearer

  /** `jwt.verify(token, secret)` at clock reading `now`: the claims, or `None` when it throws. */
  type Verifier = (string, string, int) -> Option<Claims>

  /** `jwt.sign(payload, secret)`. */
  type Signer = (Claims, string) -> string

  /** `user.comparePassword(password)`. */
  type PasswordCheck = (User, string) -> bool

  /** Token lifetime in seconds (`expiresIn: '1h'`). */
  const TokenLifetime: int := 3600

  /** What the middleware decides: let the request through with these claims, or answer it now. */
  datatype GateResult = Admit(claims: Claims) | Halt(response: Response)

  /** The decision of `authMiddleware` for a request whose Authorization header is `header`. */
  function Gate(header: Option<string>, secret: string, now: int, verify: Verifier): (g: GateResult)
    ensures g == Halt(Uncaught) <==> header.None?
    ensures g.Halt? ==> g.response in {Uncaught, Reply(401, Message(AuthorizationDenied)), Reply(401, Message(InvalidToken))}
  {
    match header
    // `.replace` on `undefined` throws before the `try`: Express's error handler answers.
    case None => Halt(Uncaught)
    case Some(h) =>
      var token := ExtractToken(h);
      if token == "" then Halt(Reply(401, Message(AuthorizationDenied)))
      else
        match verify(token, secret, now)
        case None => Halt(Reply(401, Message(InvalidToken)))
        case Some(c) => Admit(c)
  }

  /** The request object the middleware annotates with the verified identity. */
  class Request {
    const header: Option<string>
    var user: Option<Claims>

    constructor (header: Option<string>)
      ensures this.header == header && user == None
    {
      this.header := header;
      user := None;
    }
  }

  /**
   * `authMiddleware`: answers the request itself (`halted` is the answer) or
   * attaches the verified claims to `req.user` and passes it on (`halted`
   * is `None`). A halted request keeps its previous `user`.
   */
  method AuthMiddleware(req: Request, secret: string, now: int, verify: Verifier) returns (halted: Option<Response>)
    modifies req
    ensures match Gate(req.header, secret, now, verify)
            case Admit(c) => halted == None && req.user == Some(c)
            case Halt(resp) => halted == Some(resp) && req.user == old(req.user)
  {
    if req.header.None? {
      return Some(Uncaught);
    }
    var token := ExtractToken(req.header.value);
    if token == "" {
      return Some(Reply(401, Message(AuthorizationDenied)));
    }
    var decoded := verify(token, secret, now);
    if decoded.None? {
      return Some(Reply(401, Message(InvalidToken)));
    }
    req.user := decoded;
    halted := None;
  }

  /** A header of exactly `Bearer ` (or an empty one) is denied, and only those. */
  lemma GateDeniesEmptyToken(h: string, secret: string, now: int, verify: Verifier)
    ensures Gate(Some(h), secret, now, verify) == Halt(Reply(401, Message(AuthorizationDenied)))
            <==> h == "" || h == Prefix
  {
  }

  /** The gate admits exactly when a present header carries a non-empty token the verifier accepts. */
  lemma GateAdmitsOnlyVerified(header: Option<string>, secret: string, now: int, verify: Verifier, c: Claims)
    ensures Gate(header, secret, now, verify) == Admit(c) <==>
            header.Some? && ExtractToken(header.value) != "" &&
            verify(ExtractToken(header.value), secret, now) == Some(c)
  {
  }

  /**
   * Any present header whose extracted token is non-empty and rejected by
   * the verifier gets 401 'Token inválido', with or without the prefix.
   */
  lemma GateRejectsUnverified(h: string, secret: string, now: int, verify: Verifier)
    requires ExtractToken(h) != "" && verify(ExtractToken(h), secret, now) == None
    ensures Gate(Some(h), secret, now, verify) == Halt(Reply(401, Message(InvalidToken)))
  {
  }

  /** In particular, `Bearer <t>` with a non-empty `t` the verifier rejects gets 401 'Token inválido'. */
  lemma GateRejectsUnverifiedBearer(t: string, secret: string, now: int, verify: Verifier)
    requires t != "" && verify(t, secret, now) == None
    ensures Gate(Some(Prefix + t), secret, now, verify) == Halt(Reply(401, Message(InvalidToken)))
  {
    ExtractTokenOfBearer(t);
  }

  /** jsonwebtoken's expiry rule: it yields claims only while `now < exp`. */
  ghost predicate HonoursExpiry(verify: Verifier) {
    forall t, s, n :: verify(t, s, n).Some? ==> n < verify(t, s, n).value.exp
  }

  /** With a verifier that honours expiry, an admitted request never carries expired claims. */
  lemma GateAdmitsOnlyUnexpired(header: Option<string>, secret: string, now: int, verify: Verifier)
    requires HonoursExpiry(verify)
    ensures Gate(header, secret, now, verify).Admit? ==> now < Gate(header, secret, now, verify).claims.exp
  {
  }

  /** The position of the first stored user with this email (`User.findOne({ email })`). */
  function FindByEmail(users: seq<User>, email: string, from: nat): (r: Option<nat>)
    requires from <= |users|
    ensures r.Some? ==> from <= r.value < |users| && users[r.value].email == email
    ensures r.Some? ==> forall j :: from <= j < r.value ==> users[j].email != email
    ensures r.None? ==> forall j :: from <= j < |users| ==> users[j].email != email
    decreases |users| - from
  {
    if from == |users| then None
    else if users[from].email == email then Some(from)
    else FindByEmail(users, email, from + 1)
  }

  /** The claims `/login` signs for `u` at clock reading `now`. */
  function IssuedClaims(u: User, now: int): Claims {
    Claims(u.id, u.name, u.email, now, now + TokenLifetime)
  }

  /** The `/login` handler's response. `faults.query` is a failing user lookup. */
  function Login(users: seq<User>, email: string, password: string, passwordMatches: PasswordCheck,
                 sign: Signer, secret: string, now: int, faults: StorageFaults): (r: Response)
    ensures r.Reply? && r.status in {200, 400, 401}
    ensures r.status == 200 <==> r.payload.Token?
  {
    if faults.query.Some? then Reply(400, Message(faults.query.value))
    else
      match FindByEmail(users, email, 0)
      case None => Reply(401, Message(InvalidCredentials))
      case Some(i) =>
        if !passwordMatches(users[i], password) then Reply(401, Message(InvalidCredentials))
        else Reply(200, Token(sign(IssuedClaims(users[i], now), secret)))
  }

  /** No user stores an email another user stores too (the user model's unique index). */
  ghost predicate UniqueEmails(users: seq<User>) {
    forall i, j :: 0 <= i < j < |users| ==> users[i].email != users[j].email
  }

  /**
   * Whatever the user table holds, `/login` issues a token only when the
   * lookup succeeds, finds a user with this email and that user's password
   * check passes; the token signs that user's id, name and email and expires
   * one hour after issuance.
   */
  lemma LoginTokenOnlyOnBothChecks(users: seq<User>, email: string, password: string, passwordMatches: PasswordCheck,
                                   sign: Signer, secret: string, now: int, faults: StorageFaults)
    ensures var r := Login(users, email, password, passwordMatches, sign, secret, now, faults);
            r.payload.Token? ==>
              faults.query.None? && FindByEmail(users, email, 0).Some? &&
              var u := users[FindByEmail(users, email, 0).value];
              u in users && u.email == email && passwordMatches(u, password) &&
              r == Reply(200, Token(sign(Claims(u.id, u.name, u.email, now, now + TokenLifetime), secret)))
  {
  }

  /**
   * The converse, for any table: with a working lookup, the first user with
   * this email earns their own token when their password check passes.
   */
  lemma LoginIssuesToFirstMatch(users: seq<User>, email: string, password: string, passwordMatches: PasswordCheck,
                                sign: Signer, secret: string, now: int, faults: StorageFaults, i: nat)
    requires faults.query.None? && i < |users| && users[i].email == email
    requires forall k :: 0 <= k < i ==> users[k].email != email
    requires passwordMatches(users[i], password)
    ensures Login(users, email, password, passwordMatches, sign, secret, now, faults)
            == Reply(200, Token(sign(IssuedClaims(users[i], now), secret)))
  {
  }

  /**
   * With unique emails the first match is the only one: a working lookup, a
   * user with this email and a passing password check earn that user's token.
   */
  lemma LoginIssuesWithUniqueEmails(users: seq<User>, email: string, password: string, passwordMatches: PasswordCheck,
                                    sign: Signer, secret: string, now: int, faults: StorageFaults, u: User)
    requires UniqueEmails(users)
    requires faults.query.None? && u in users && u.email == email && passwordMatches(u, password)
    ensures Login(users, email, password, passwordMatches, sign, secret, now, faults)
            == Reply(200, Token(sign(Claims(u.id, u.name, u.email, now, now + TokenLifetime), secret)))
  {
    var i :| 0 <= i < |users| && users[i] == u;
    LoginIssuesToFirstMatch(users, email, password, passwordMatches, sign, secret, now, faults, i);
  }

  /**
   * Without unique emails only the first user with the email is checked: a
   * later user `users[j]` with the same email and a matching password is
   * refused when the first one, `users[i]`, fails the check.
   */
  lemma LoginChecksOnlyFirstMatch(users: seq<User>, email: string, password: string, passwordMatches: PasswordCheck,
                                  sign: Signer, secret: string, now: int, i: nat, j: nat)
    requires i < j < |users| && users[i].email == email && users[j].email == email
    requires forall k :: 0 <= k < i ==> users[k].email != email
    requires !passwordMatches(users[i], password) && passwordMatches(users[j], password)
    ensures Login(users, email, password, passwordMatches, sign, secret, now, NoFaults)
            == Reply(401, Message(InvalidCredentials))
  {
  }

  /** An unknown email and a password the first user with `email` rejects get the identical answer. */
  lemma LoginFailuresIndistinguishable(users: seq<User>, email: string, wrongPassword: string, password: string,
                                       passwordMatches: PasswordCheck, sign: Signer, secret: string, now: int,
                                       unknownEmail: string, faults: StorageFaults)
    requires forall i :: 0 <= i < |users| ==> users[i].email != unknownEmail
    requires FindByEmail(users, email, 0).Some? ==> !passwordMatches(users[FindByEmail(users, email, 0).value], wrongPassword)
    ensures Login(users, unknownEmail, password, passwordMatches, sign, secret, now, faults)
            == Login(users, email, wrongPassword, passwordMatches, sign, secret, now, faults)
    ensures faults.query.None? ==>
              Login(users, unknownEmail, password, passwordMatches, sign, secret, now, faults)
              == Reply(401, Message(InvalidCredentials))
  {
  }

  /** jsonwebtoken's round trip: a signed payload verifies to itself until it expires; no signed token is empty. */
  ghost predicate TokenServiceSound(sign: Signer, verify: Verifier, secret: string) {
    && (forall c: Claims, n: int :: n < c.exp ==> verify(sign(c, secret), secret, n) == Some(c))
    && (forall c: Claims :: sign(c, secret) != "")
  }

  /**
   * The token `/login` issues, sent back as `Bearer <token>`, opens the gate
   * for the whole following hour with the claims of the user who logged in.
   */
  lemma LoginTokenOpensGate(users: seq<User>, email: string, password: string, passwordMatches: PasswordCheck,
                            sign: Signer, verify: Verifier, secret: string, now: int, later: int)
    requires TokenServiceSound(sign, verify, secret)
    requires now <= later < now + TokenLifetime
    ensures var r := Login(users, email, password, passwordMatches, sign, secret, now, NoFaults);
            r.Reply? && r.payload.Token? ==>
              exists u :: u in users && u.email == email &&
                Gate(Some(Prefix + r.payload.token), secret, later, verify) == Admit(IssuedClaims(u, now))
  {
    var r := Login(users, email, password, passwordMatches, sign, secret, now, NoFaults);
    if r.Reply? && r.payload.Token? {
      var i := FindByEmail(users, email, 0).value;
      var c := IssuedClaims(users[i], now);
      ExtractTokenOfBearer(sign(c, secret));
      assert users[i] in users;
      assert Gate(Some(Prefix + r.payload.token), secret, later, verify) == Admit(c);
    }
  }

  /** The verifier opens a signed token, if at all, to the very claims that were signed. */
  ghost predicate OpensOnlyToSigned(sign: Signer, verify: Verifier, secret: string) {
    forall c: Claims, n: int :: verify(sign(c, secret), secret, n) == None || verify(sign(c, secret), secret, n) == Some(c)
  }

  /**
   * Once its hour is over, the token `/login` issued, sent back as
   * `Bearer <token>`, is refused with 401 'Token inválido'.
   */
  lemma LoginTokenExpires(users: seq<User>, email: string, password: string, passwordMatches: PasswordCheck,
                          sign: Signer, verify: Verifier, secret: string, now: int, later: int)
    requires TokenServiceSound(sign, verify, secret) && HonoursExpiry(verify) && OpensOnlyToSigned(sign, verify, secret)
    requires now + TokenLifetime <= later
    ensures var r := Login(users, email, password, passwordMatches, sign, secret, now, NoFaults);
            r.Reply? && r.payload.Token? ==>
              Gate(Some(Prefix + r.payload.token), secret, later, verify) == Halt(Reply(401, Message(InvalidToken)))
  {
    var r := Login(users, email, password, passwordMatches, sign, secret, now, NoFaults);
    if r.Reply? && r.payload.Token? {
      var c := IssuedClaims(users[FindByEmail(users, email, 0).value], now);
      ExtractTokenOfBearer(sign(c, secret));
      assert verify(sign(c, secret), secret, later) == None;
    }
  }
}
