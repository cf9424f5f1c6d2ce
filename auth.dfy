/** Registration and login over the user table. Password hashing, hash
    comparison and token signing are opaque operations passed in as
    functions: `hash(password, rounds)`, `compare(password, hash)` and
    `sign(payload, expiresIn)`. */
module Auth {
  import opened Wrappers
  import Users

  const HASH_SALT_ROUNDS: nat := 12
  const EMAIL_TAKEN: string := "邮箱已被注册"
  const INVALID_CREDENTIALS: string := "邮箱或密码不正确"
  /** The token lifetime used when the configuration has none. */
  const DEFAULT_EXPIRES_IN: string := "1h"

  datatype RegisterDto = RegisterDto(email: string, password: string, displayName: string)
  datatype LoginDto = LoginDto(email: string, password: string)

  /** The user as the client sees it: no password hash. */
  datatype AuthUser = AuthUser(id: nat, email: string, displayName: string)
  datatype JwtPayload = JwtPayload(sub: nat, email: string, displayName: string)
  datatype AuthResult = AuthResult(accessToken: string, user: AuthUser)

  /** `ConflictException` and `UnauthorizedException`. */
  datatype AuthError = Conflict(message: string) | Unauthorized(message: string)

  /** `toAuthUser`: id, e-mail and display name, nothing else. */
  function ToAuthUser(user: Users.User): (r: AuthUser)
    ensures r.id == user.id && r.email == user.email && r.displayName == user.displayName
  {
    AuthUser(user.id, user.email, user.displayName)
  }

  /** The token's claims: the subject is the user id. */
  function Payload(user: Users.User): (r: JwtPayload)
    ensures r.sub == user.id && r.email == user.email && r.displayName == user.displayName
  {
    JwtPayload(user.id, user.email, user.displayName)
  }

  /** `buildAuthResult`: a token signed over the user's claims with the
      configured lifetime, or one hour when none is configured. */
  function BuildAuthResult(user: Users.User, expiresIn: Option<string>,
                           sign: (JwtPayload, string) -> string): (r: AuthResult)
    ensures r.user == ToAuthUser(user)
    ensures expiresIn.None? ==> r.accessToken == sign(Payload(user), DEFAULT_EXPIRES_IN)
    ensures expiresIn.Some? ==> r.accessToken == sign(Payload(user), expiresIn.value)
  {
    AuthResult(sign(Payload(user), expiresIn.GetOr(DEFAULT_EXPIRES_IN)), ToAuthUser(user))
  }

  /** `register`: an address already taken (in any spelling that normalises
      the same) is a conflict and creates nothing; otherwise exactly one
      user is stored, holding the hash of the password and never the
      password, and the unique-key refusal of the table cannot occur. */
  method Register(users: Users.UsersService, dto: RegisterDto, hash: (string, nat) -> string,
                  sign: (JwtPayload, string) -> string, expiresIn: Option<string>, now: int)
    returns (r: Result<AuthResult, AuthError>)
    requires users.Valid()
    modifies users
    ensures users.Valid()
    ensures old(users.FindByEmail(dto.email)).Some? ==>
      r == Err(Conflict(EMAIL_TAKEN)) && users.records == old(users.records)
    ensures old(users.FindByEmail(dto.email)).None? ==>
      |users.records| == |old(users.records)| + 1 &&
      users.records[..|old(users.records)|] == old(users.records) &&
      users.FindByEmail(dto.email).Some? &&
      RegisteredAs(users.FindByEmail(dto.email).value, dto, hash) &&
      r == Ok(BuildAuthResult(users.FindByEmail(dto.email).value, expiresIn, sign))
  {
    var existing := users.FindByEmail(dto.email);
    if existing.Some? {
      return Err(Conflict(EMAIL_TAKEN));
    }
    var passwordHash := hash(dto.password, HASH_SALT_ROUNDS);
    var created := users.CreateUser(
      Users.CreateUserInput(dto.email, passwordHash, dto.displayName, None), now);
    assert created.Ok?;
    r := Ok(BuildAuthResult(created.value, expiresIn, sign));
  }

  /** The stored user carries the registration's name and the hash of its
      password. */
  predicate RegisteredAs(user: Users.User, dto: RegisterDto, hash: (string, nat) -> string) {
    user.email == Users.NormalizeEmail(dto.email) &&
    user.passwordHash == hash(dto.password, HASH_SALT_ROUNDS) &&
    user.displayName == dto.displayName && user.timezone.None?
  }

  /** `login`: succeeds exactly when the address is known and the password
      matches its hash; an unknown address and a wrong password fail with
      the same message, so a caller cannot tell them apart. */
  function Login(users: Users.UsersService, dto: LoginDto, compare: (string, string) -> bool,
                 sign: (JwtPayload, string) -> string, expiresIn: Option<string>)
    : (r: Result<AuthResult, AuthError>)
    reads users
    ensures r.Ok? <==>
      users.FindByEmail(dto.email).Some? &&
      compare(dto.password, users.FindByEmail(dto.email).value.passwordHash)
    ensures r.Err? ==> r.error == Unauthorized(INVALID_CREDENTIALS)
    ensures r.Ok? ==> r.value.user == ToAuthUser(users.FindByEmail(dto.email).value)
  {
    var user := users.FindByEmail(dto.email);
    if user.None? then Err(Unauthorized(INVALID_CREDENTIALS))
    else if !compare(dto.password, user.value.passwordHash) then Err(Unauthorized(INVALID_CREDENTIALS))
    else Ok(BuildAuthResult(user.value, expiresIn, sign))
  }

  /** A user just registered can log in with the same password under any
      spelling of the address that normalises the same, provided the hash
      comparison accepts a password against its own hash. */
  lemma RegisteredUserCanLogIn(users: Users.UsersService, dto: RegisterDto, email: string,
                               hash: (string, nat) -> string, compare: (string, string) -> bool,
                               sign: (JwtPayload, string) -> string, expiresIn: Option<string>)
    requires users.FindByEmail(dto.email).Some?
    requires RegisteredAs(users.FindByEmail(dto.email).value, dto, hash)
    requires Users.NormalizeEmail(email) == Users.NormalizeEmail(dto.email)
    requires compare(dto.password, hash(dto.password, HASH_SALT_ROUNDS))
    ensures Login(users, LoginDto(email, dto.password), compare, sign, expiresIn)
      == Ok(BuildAuthResult(users.FindByEmail(dto.email).value, expiresIn, sign))
  {
    assert users.FindByEmail(email) == users.FindByEmail(dto.email);
  }
}
