/** The registration / OTP / login state machine of server/src/services/auth.service.ts.

    The service runs over two stores: the Redis key-value store, here `kv`, keyed by the literal
    Redis keys `otp:{email}` and `user_session:{email}` with each entry's TTL recorded as data;
    and the users collection, here `users`, keyed by the unique email. Collaborators are
    abstracted: bcrypt is an uninterpreted `hash` with `Compare(p, hash(p))`; a JWT is the
    value `Token(claims, secret, expiresIn)`; uuid, the database's `_id`, `new Date()` and
    `Math.random()` are parameters; `sendOtpEmail` is a parameter saying whether it throws. */
module AuthService {
  import opened Wrappers
  import opened Strings
  import opened UserModel
  import opened RequestDto
  import opened ResponseDto

  const OtpTtl: nat := 150
  const SessionTtl: nat := 600
  const ResendOtpTtl: nat := 120
  const AccessTtl := "60m"
  const RefreshTtl := "7d"

  const EmailExists := "Email already exists"
  const OtpExpired := "OTP expired or invalid"
  const InvalidOtp := "Invalid OTP"
  const SessionNotFound := "User data not found. Please register again"
  const InvalidRole := "Invalid role in session data"
  const CannotCreate := "Cannot create user. Please register again"
  const SessionExpired := "user session expired please register again"
  const UserNotFound := "User not found"
  const InvalidPassword := "Invalid password"
  const CannotFindUser := "cannot find user please try again"

  /** The Redis key of a pending OTP. */
  function OtpKey(email: string): (k: string)
    ensures |k| == 4 + |email| && k[0] == 'o' && k[4..] == email
  {
    "otp:" + email
  }

  /** The Redis key of a pending registration. */
  function SessionKey(email: string): (k: string)
    ensures |k| == 13 + |email| && k[0] == 'u' && k[13..] == email
  {
    "user_session:" + email
  }

  /** The organizer-only part of a pending registration. */
  datatype OrganizerFields = OrganizerFields(organizationName: Option<string>, contactInfo: Option<ContactInfo>)

  /** The JSON object stored under `user_session:{email}`: no plaintext password, only its hash. */
  datatype Session = Session(
    name: string,
    email: string,
    hashedPassword: string,
    role: string,
    organizer: Option<OrganizerFields>)

  /** What a Redis entry holds once `JSON.parse`d. */
  datatype Value = OtpRecord(otp: string) | SessionRecord(session: Session)

  datatype Entry = Entry(value: Value, ttl: nat)

  /** A signed JWT: its payload, the secret it was signed with and its `expiresIn`. */
  datatype Token = Token(claims: map<string, string>, secret: string, expiresIn: string)

  /** An email `sendOtpEmail` delivered. */
  datatype Mail = Mail(to: string, otp: string)

  datatype LoginResponse = LoginResponse(accessToken: Token, refreshToken: Token, user: UserView)

  datatype RefreshResponse = RefreshResponse(accessToken: Token, user: UserView)

  /** `userCreateData`, the record handed to the repository's `create`. */
  datatype CreateData = CreateData(
    email: string,
    password: string,
    name: string,
    role: string,
    userId: string,
    organizationName: Option<string>,
    contactInfo: Option<ContactInfo>,
    isVerified: bool)

  /** `Math.floor(100000 + Math.random() * 900000).toString()`, for `random` a value of `Math.random()`. */
  function OtpFromRandom(random: real): (code: string)
    requires 0.0 <= random < 1.0
    ensures IsSixDigits(code)
    ensures 100000 <= DigitsValue(code) <= 999999
  {
    var n := (100000.0 + random * 900000.0).Floor;
    assert 100000 <= n <= 999999 by {
      assert random * 900000.0 < 900000.0;
    }
    OtpLength(n);
    DigitsValueOfNatToString(n);
    NatToString(n)
  }

  lemma OtpLength(n: int)
    requires 100000 <= n <= 999999
    ensures |NatToString(n)| == 6
  {
    assert Pow10(5) == 100000 && Pow10(6) == 1000000 by {
      assert Pow10(2) == 100;
      assert Pow10(4) == 10000;
    }
    NatToStringLength(n, 6);
  }

  /** Different random draws that give different numbers give different codes. */
  lemma OtpsDiffer(r1: real, r2: real)
    requires 0.0 <= r1 < 1.0 && 0.0 <= r2 < 1.0
    requires (100000.0 + r1 * 900000.0).Floor != (100000.0 + r2 * 900000.0).Floor
    ensures OtpFromRandom(r1) != OtpFromRandom(r2)
  {
    var n1, n2 := (100000.0 + r1 * 900000.0).Floor, (100000.0 + r2 * 900000.0).Floor;
    assert 0 <= n1 && 0 <= n2 by {
      assert r1 * 900000.0 >= 0.0 && r2 * 900000.0 >= 0.0;
    }
    DigitsValueOfNatToString(n1);
    DigitsValueOfNatToString(n2);
  }

  /** The session record `register` builds: organizer fields only for an organizer DTO. */
  function SessionOf(data: RegistrationRequest, hashedPassword: string): (s: Session)
    ensures s.name == data.Name() && s.email == data.Email() && s.role == data.Role()
    ensures s.hashedPassword == hashedPassword
    ensures s.organizer.Some? <==> data.OrganizerRequest?
    ensures data.OrganizerRequest? ==>
      s.organizer.value == OrganizerFields(data.organizer.organizationName, data.organizer.contactInfo)
  {
    Session(data.Name(), data.Email(), hashedPassword, data.Role(),
            match data
            case OrganizerRequest(o) => Some(OrganizerFields(o.organizationName, o.contactInfo))
            case UserRequest(_) => None)
  }

  /** `JSON.parse` of a stored session, seen as the `data: any` of a DTO constructor: it has a
      `hashedPassword` key and no `password` key. */
  function SessionFields(s: Session): RawRegistration {
    RawRegistration(
      email := Some(s.email),
      password := None,
      name := Some(s.name),
      role := Some(s.role),
      organizationName := if s.organizer.Some? then s.organizer.value.organizationName else None,
      contactInfo := if s.organizer.Some? then s.organizer.value.contactInfo else None,
      hashedPassword := Some(s.hashedPassword))
  }

  /** The session as the re-validation evidently meant to see it: the hash in the `password` slot. */
  function IntendedSessionFields(s: Session): (raw: RawRegistration)
    ensures HasRequiredFields(raw) <==> s.email != "" && s.hashedPassword != "" && s.name != ""
  {
    SessionFields(s).(password := Some(s.hashedPassword))
  }

  /** As written, re-validating any stored session through either DTO constructor throws
      "Missing required fields": the session has no `password` key. */
  lemma SessionNeverRevalidates(s: Session)
    ensures NewUserRegistration(SessionFields(s)) == Err(MissingRequiredFields)
    ensures NewOrganizerRegistration(SessionFields(s)) == Err(MissingRequiredFields)
  {
  }

  /** `process.env.X || fallback` */
  function EnvOr(env: Option<string>, fallback: string): (r: string)
    ensures Truthy(env) ==> r == env.value
    ensures !Truthy(env) ==> r == fallback
  {
    if Truthy(env) then env.value else fallback
  }

  /** The payload `{ userId, role }` of the tokens issued at login and verification. */
  function SubjectClaims(u: User): map<string, string> {
    map["userId" := u.userId, "role" := u.role]
  }

  /** The payload `{ userId, <roleKey>: userRole }` of a refreshed access token: a JSON object drops
      `undefined` values, so a claim missing from the decoded token is missing here too. */
  function RefreshPayload(roleKey: string, userId: Option<string>, userRole: Option<string>): (c: map<string, string>)
    requires roleKey != "userId"
    ensures c.Keys <= {"userId", roleKey}
    ensures ("userId" in c <==> userId.Some?) && (roleKey in c <==> userRole.Some?)
    ensures userId.Some? ==> c["userId"] == userId.value
    ensures userRole.Some? ==> c[roleKey] == userRole.value
  {
    var withId := if userId.Some? then map["userId" := userId.value] else map[];
    if userRole.Some? then withId[roleKey := userRole.value] else withId
  }

  /** As written, `{ userId, userRole }`: the role travels under "userRole". */
  function RefreshedClaims(userId: Option<string>, userRole: Option<string>): map<string, string> {
    RefreshPayload("userRole", userId, userRole)
  }

  /** As evidently intended, `{ userId, role: userRole }`, the key login uses. */
  function RefreshedClaimsIntended(userId: Option<string>, userRole: Option<string>): map<string, string> {
    RefreshPayload("role", userId, userRole)
  }

  function Claim(claims: map<string, string>, key: string): Option<string> {
    if key in claims then Some(claims[key]) else None
  }

  /** As written, refreshing a login-issued token yields an access token whose payload differs
      from the one login issued: the role travels under "userRole", and "role" is gone. */
  lemma RefreshDropsRoleClaim(u: User)
    ensures var c := SubjectClaims(u);
      RefreshedClaims(Claim(c, "userId"), Claim(c, "role")) != c
      && "role" in c && "role" !in RefreshedClaims(Claim(c, "userId"), Claim(c, "role"))
  {
  }

  /** With the intended payload, a refreshed access token carries exactly the login claims. */
  lemma RefreshIntendedKeepsClaims(u: User)
    ensures var c := SubjectClaims(u); RefreshedClaimsIntended(Claim(c, "userId"), Claim(c, "role")) == c
  {
    var c := SubjectClaims(u);
    var r := RefreshedClaimsIntended(Claim(c, "userId"), Claim(c, "role"));
    assert r.Keys == c.Keys;
  }

  /** `jwt.verify(token, secret)`: fails without a secret, on a signature made with another
      secret, or past the token's expiry (`expired`, since the clock is not modelled). */
  function VerifyToken(token: Token, secret: Option<string>, expired: bool): (r: Result<map<string, string>>)
    ensures r.Ok? <==> Truthy(secret) && token.secret == secret.value && !expired
    ensures r.Ok? ==> r.value == token.claims
  {
    if !Truthy(secret) then Err("secret or public key must be provided")
    else if token.secret != secret.value then Err("invalid signature")
    else if expired then Err("jwt expired")
    else Ok(token.claims)
  }

  /** The document `create` stores: the given fields plus the database id and timestamps. */
  function CreatedUser(data: CreateData, objectId: string, now: int): (u: User)
    ensures u.email == data.email && u.password == data.password && u.name == data.name
    ensures u.role == data.role && u.userId == data.userId && u.isVerified == Some(data.isVerified)
    ensures u.organizationName == data.organizationName && u.contactInfo == data.contactInfo
  {
    User(objectId, data.email, data.password, data.userId, data.name, data.role, None, None,
         data.organizationName, None, None, Some(data.isVerified), data.contactInfo, Some(now), Some(now))
  }

  class AuthService {
    /** The Redis store: key, parsed value, TTL in seconds. */
    var kv: map<string, Entry>
    /** The users collection, keyed by its unique `email`. */
    var users: map<string, User>
    /** The OTP emails delivered so far, oldest first. */
    var outbox: seq<Mail>
    /** bcrypt's hash of a password. */
    const hash: string -> string
    const accessSecretEnv: Option<string>
    const refreshSecretEnv: Option<string>

    /** The store invariant: every stored user is verified, keyed by its email and has its own
        subject id; every live OTP is six digits; a session is stored under its own email, and only
        for an email with no user yet. */
    ghost predicate Valid()
      reads this
    {
      && (forall e | e in users :: users[e].email == e && users[e].isVerified == Some(true))
      && (forall e1, e2 | e1 in users && e2 in users && e1 != e2 :: users[e1].userId != users[e2].userId)
      && (forall e | OtpKey(e) in kv :: kv[OtpKey(e)].value.OtpRecord? && IsSixDigits(kv[OtpKey(e)].value.otp))
      && (forall e | SessionKey(e) in kv ::
            kv[SessionKey(e)].value.SessionRecord? && kv[SessionKey(e)].value.session.email == e && e !in users)
    }

    constructor (hash: string -> string, accessSecretEnv: Option<string>, refreshSecretEnv: Option<string>)
      ensures Valid()
      ensures kv == map[] && users == map[] && outbox == []
      ensures this.hash == hash && this.accessSecretEnv == accessSecretEnv && this.refreshSecretEnv == refreshSecretEnv
    {
      this.hash := hash;
      this.accessSecretEnv := accessSecretEnv;
      this.refreshSecretEnv := refreshSecretEnv;
      kv := map[];
      users := map[];
      outbox := [];
    }

    /** `bcrypt.compare(password, hashed)` */
    predicate Compare(password: string, hashed: string) {
      hash(password) == hashed
    }

    lemma CompareAcceptsOwnHash(password: string)
      ensures Compare(password, hash(password))
    {
    }

    function AccessSecret(): string {
      EnvOr(accessSecretEnv, "secret")
    }

    function RefreshSecret(): string {
      EnvOr(refreshSecretEnv, "refresh_secret")
    }

    function AccessToken(u: User): Token {
      Token(SubjectClaims(u), AccessSecret(), AccessTtl)
    }

    function RefreshToken(u: User): Token {
      Token(SubjectClaims(u), RefreshSecret(), RefreshTtl)
    }

    /** The code stored under `otp:{email}` equals `otp`. */
    predicate OtpMatches(email: string, otp: string)
      reads this
    {
      OtpKey(email) in kv && kv[OtpKey(email)].value.OtpRecord? && kv[OtpKey(email)].value.otp == otp
    }

    /** The registration pending under `user_session:{email}`, if any. */
    function Pending(email: string): Option<Session>
      reads this
    {
      if SessionKey(email) in kv && kv[SessionKey(email)].value.SessionRecord?
      then Some(kv[SessionKey(email)].value.session) else None
    }

    /** `register(data)`. Email dispatch precedes both writes, so a failed send stores nothing;
        on success both keys are (over)written and the directory is untouched. */
    method Register(data: RegistrationRequest, random: real, sendError: Option<string>) returns (r: Result<()>)
      requires Valid()
      requires 0.0 <= random < 1.0
      modifies this
      ensures Valid()
      ensures users == old(users)
      ensures data.Email() in old(users) ==> r == Err(EmailExists) && kv == old(kv) && outbox == old(outbox)
      ensures data.Email() !in old(users) && sendError.Some? ==>
        r == Err(sendError.value) && kv == old(kv) && outbox == old(outbox)
      ensures data.Email() !in old(users) && sendError.None? ==>
        var email, code := data.Email(), OtpFromRandom(random);
        && r == Ok(())
        && outbox == old(outbox) + [Mail(email, code)]
        && kv == old(kv)[OtpKey(email) := Entry(OtpRecord(code), OtpTtl)]
                        [SessionKey(email) := Entry(SessionRecord(SessionOf(data, hash(data.Password()))), SessionTtl)]
    {
      var email := data.Email();
      if email in users {
        return Err(EmailExists);
      }
      var otp := OtpFromRandom(random);
      var hashedPassword := hash(data.Password());
      if sendError.Some? {
        return Err(sendError.value);
      }
      outbox := outbox + [Mail(email, otp)];
      kv := kv[OtpKey(email) := Entry(OtpRecord(otp), OtpTtl)];
      var sessionData := SessionOf(data, hashedPassword);
      kv := kv[SessionKey(email) := Entry(SessionRecord(sessionData), SessionTtl)];
      r := Ok(());
    }

    /** `verifyOtp(email, otp)` as written. Every path fails and changes nothing: after the three
        checks, both role branches re-validate the session through a DTO constructor, which throws
        because the session carries `hashedPassword` and no `password`. */
    method VerifyOtp(email: string, otp: string, freshUserId: string) returns (r: Result<LoginResponse>)
      requires Valid()
      ensures OtpKey(email) !in kv ==> r == Err(OtpExpired)
      ensures OtpKey(email) in kv && !OtpMatches(email, otp) ==> r == Err(InvalidOtp)
      ensures OtpMatches(email, otp) && Pending(email).None? ==> r == Err(SessionNotFound)
      ensures OtpMatches(email, otp) && Pending(email).Some? ==>
        if Pending(email).value.role in {"user", "organizer"} then r == Err(MissingRequiredFields)
        else r == Err(InvalidRole)
      ensures r.Err?
    {
      if OtpKey(email) !in kv {
        return Err(OtpExpired);
      }
      var stored := kv[OtpKey(email)].value;
      if !(stored.OtpRecord? && otp == stored.otp) {
        return Err(InvalidOtp);
      }
      if SessionKey(email) !in kv {
        return Err(SessionNotFound);
      }
      var parsedData := kv[SessionKey(email)].value.session;
      var userId := freshUserId;
      if parsedData.role == "organizer" {
        var organizerData := NewOrganizerRegistration(SessionFields(parsedData));
        if organizerData.Err? {
          return Err(organizerData.error);
        }
      } else if parsedData.role == "user" {
        var userData := NewUserRegistration(SessionFields(parsedData));
        if userData.Err? {
          return Err(userData.error);
        }
      } else {
        return Err(InvalidRole);
      }
      // Both constructors threw above: user creation, token issue and cleanup are dead code.
      assert false;
    }

    /** `verifyOtp(email, otp)` with the re-validation it evidently intended (the stored hash
        fills the `password` slot), followed by the provisioning block. */
    method VerifyOtpIntended(email: string, otp: string, freshUserId: string, objectId: string, now: int, dbAccepts: bool)
      returns (r: Result<LoginResponse>)
      requires Valid()
      requires forall e | e in users :: users[e].userId != freshUserId
      modifies this
      ensures Valid()
      ensures outbox == old(outbox)
      ensures old(OtpKey(email) !in kv) ==> r == Err(OtpExpired)
      ensures old(OtpKey(email) in kv && !OtpMatches(email, otp)) ==> r == Err(InvalidOtp)
      ensures old(OtpMatches(email, otp) && Pending(email).None?) ==> r == Err(SessionNotFound)
      ensures old(OtpMatches(email, otp) && Pending(email).Some?) && old(Pending(email)).value.role !in {"user", "organizer"}
        ==> r == Err(InvalidRole)
      ensures old(OtpMatches(email, otp) && Pending(email).Some?) && old(Pending(email)).value.role in {"user", "organizer"} ==>
        if !HasRequiredFields(IntendedSessionFields(old(Pending(email)).value)) then r == Err(MissingRequiredFields)
        else if !dbAccepts then r == Err(CannotCreate)
        else r.Ok?
      ensures r.Err? ==> kv == old(kv) && users == old(users)
      ensures r.Ok? ==>
        var s := old(Pending(email)).value;
        && old(OtpMatches(email, otp)) && old(Pending(email)).Some?
        && kv == old(kv) - {OtpKey(email), SessionKey(email)}
        && users.Keys == old(users).Keys + {email}
        && (forall e | e in old(users) :: users[e] == old(users)[e])
        && users[email].isVerified == Some(true) && users[email].userId == freshUserId
        && users[email].password == s.hashedPassword && users[email].role == s.role
        && users[email].name == s.name && users[email].id == objectId
        && users[email].organizationName == (if s.role == "organizer" then SessionFields(s).organizationName else None)
        && users[email].contactInfo == (if s.role == "organizer" then SessionFields(s).contactInfo else None)
        && r.value == LoginResponse(AccessToken(users[email]), RefreshToken(users[email]), ViewOf(users[email], now))
    {
      if OtpKey(email) !in kv {
        return Err(OtpExpired);
      }
      var stored := kv[OtpKey(email)].value;
      if !(stored.OtpRecord? && otp == stored.otp) {
        return Err(InvalidOtp);
      }
      if SessionKey(email) !in kv {
        return Err(SessionNotFound);
      }
      var parsedData := kv[SessionKey(email)].value.session;
      var userId := freshUserId;
      var userCreateData;
      if parsedData.role == "organizer" {
        var organizerData := NewOrganizerRegistration(IntendedSessionFields(parsedData));
        if organizerData.Err? {
          return Err(organizerData.error);
        }
        var o := organizerData.value;
        userCreateData := CreateData(o.email, parsedData.hashedPassword, o.name, "organizer", userId,
                                     o.organizationName, o.contactInfo, true);
      } else if parsedData.role == "user" {
        var userData := NewUserRegistration(IntendedSessionFields(parsedData));
        if userData.Err? {
          return Err(userData.error);
        }
        var u := userData.value;
        userCreateData := CreateData(u.email, parsedData.hashedPassword, u.name, "user", userId, None, None, true);
      } else {
        return Err(InvalidRole);
      }
      r := Provision(email, userCreateData, objectId, now, dbAccepts);
    }

    /** The block after re-validation: create the user, issue both tokens, delete both Redis keys,
        project the user. `dbAccepts` says whether `create` returns a document. */
    method Provision(email: string, data: CreateData, objectId: string, now: int, dbAccepts: bool)
      returns (r: Result<LoginResponse>)
      requires Valid()
      requires data.email == email && email !in users && data.isVerified
      requires forall e | e in users :: users[e].userId != data.userId
      modifies this
      ensures Valid()
      ensures outbox == old(outbox)
      ensures !dbAccepts ==> r == Err(CannotCreate) && kv == old(kv) && users == old(users)
      ensures dbAccepts ==>
        var u := CreatedUser(data, objectId, now);
        && users == old(users)[email := u]
        && kv == old(kv) - {OtpKey(email), SessionKey(email)}
        && r == Ok(LoginResponse(AccessToken(u), RefreshToken(u), ViewOf(u, now)))
    {
      if !dbAccepts {
        return Err(CannotCreate);
      }
      var user := CreatedUser(data, objectId, now);
      users := users[email := user];
      var accessToken := AccessToken(user);
      var refreshToken := RefreshToken(user);
      kv := kv - {OtpKey(email)};
      kv := kv - {SessionKey(email)};
      var userDto := ViewOf(user, now);
      r := Ok(LoginResponse(accessToken, refreshToken, userDto));
    }

    /** `resendOtp(email)`: only `otp:{email}` is rewritten, with a fresh code and TTL 120; the
        session keeps its record and TTL. */
    method ResendOtp(email: string, random: real, sendError: Option<string>) returns (r: Result<()>)
      requires Valid()
      requires 0.0 <= random < 1.0
      modifies this
      ensures Valid()
      ensures users == old(users)
      ensures SessionKey(email) !in old(kv) ==> r == Err(SessionExpired) && kv == old(kv) && outbox == old(outbox)
      ensures SessionKey(email) in old(kv) && sendError.Some? ==>
        r == Err(sendError.value) && kv == old(kv) && outbox == old(outbox)
      ensures SessionKey(email) in old(kv) && sendError.None? ==>
        var code := OtpFromRandom(random);
        && r == Ok(())
        && outbox == old(outbox) + [Mail(email, code)]
        && kv == old(kv)[OtpKey(email) := Entry(OtpRecord(code), ResendOtpTtl)]
    {
      if SessionKey(email) !in kv {
        return Err(SessionExpired);
      }
      var otp := OtpFromRandom(random);
      if sendError.Some? {
        return Err(sendError.value);
      }
      outbox := outbox + [Mail(email, otp)];
      kv := kv[OtpKey(email) := Entry(OtpRecord(otp), ResendOtpTtl)];
      r := Ok(());
    }

    /** Redis dropping a key whose TTL ran out. */
    method Expire(key: string)
      requires Valid()
      modifies this
      ensures Valid()
      ensures kv == old(kv) - {key} && users == old(users) && outbox == old(outbox)
    {
      kv := kv - {key};
    }

    /** `userRepository.findByUserId(userId)`; a decoded token without `userId` finds nobody. */
    method FindByUserId(userId: Option<string>) returns (u: Option<User>)
      ensures u.Some? ==> userId.Some? && u.value.userId == userId.value
                          && exists e | e in users :: users[e] == u.value
      ensures u.None? <==> userId.None? || forall e | e in users :: users[e].userId != userId.value
    {
      if userId.Some? && exists e | e in users :: users[e].userId == userId.value {
        var e :| e in users && users[e].userId == userId.value;
        u := Some(users[e]);
      } else {
        u := None;
      }
    }

    /** `login(email, password)`: reads the directory only. */
    method Login(email: string, password: string, now: int) returns (r: Result<LoginResponse>)
      ensures email !in users ==> r == Err(UserNotFound)
      ensures email in users && !Compare(password, users[email].password) ==> r == Err(InvalidPassword)
      ensures email in users && Compare(password, users[email].password) ==>
        var u := users[email];
        && r.Ok?
        && r.value.accessToken == Token(map["userId" := u.userId, "role" := u.role], AccessSecret(), "60m")
        && r.value.refreshToken == Token(map["userId" := u.userId, "role" := u.role], RefreshSecret(), "7d")
        && r.value.user == ViewOf(u, now)
      ensures Valid() && Pending(email).Some? ==> r == Err(UserNotFound)
    {
      if email !in users {
        return Err(UserNotFound);
      }
      var user := users[email];
      var isPasswordValid := Compare(password, user.password);
      if !isPasswordValid {
        return Err(InvalidPassword);
      }
      var accessToken := AccessToken(user);
      var refreshToken := RefreshToken(user);
      r := Ok(LoginResponse(accessToken, refreshToken, ViewOf(user, now)));
    }

    /** As written, with `REFRESH_TOKEN_SECRET` unset or empty, no refresh token the service
        issued can be verified: it was signed with the fallback secret, but verification has none. */
    lemma UnsetSecretRejectsOwnTokens(u: User, expired: bool)
      requires !Truthy(refreshSecretEnv)
      ensures VerifyToken(RefreshToken(u), refreshSecretEnv, expired).Err?
    {
    }

    /** Verifying with the signing secret accepts an unexpired issued refresh token and yields
        the login claims. */
    lemma IssuedRefreshTokenVerifies(u: User)
      ensures VerifyToken(RefreshToken(u), Some(RefreshSecret()), false) == Ok(SubjectClaims(u))
    {
    }

    /** `refreshAccessToken(token)` as written: the new access token's payload is
        `{ userId, userRole }`, taken from the decoded refresh token. Reads the directory only. */
    method RefreshAccessToken(refreshToken: Token, expired: bool, now: int) returns (r: Result<RefreshResponse>)
      ensures VerifyToken(refreshToken, refreshSecretEnv, expired).Err? ==>
        r == Err(VerifyToken(refreshToken, refreshSecretEnv, expired).error)
      ensures r.Ok? ==>
        var claims := refreshToken.claims;
        && VerifyToken(refreshToken, refreshSecretEnv, expired).Ok?
        && "userId" in claims
        && r.value.accessToken == Token(RefreshedClaims(Claim(claims, "userId"), Claim(claims, "role")), AccessSecret(), AccessTtl)
        && "role" !in r.value.accessToken.claims
        && exists e | e in users :: users[e].userId == claims["userId"] && r.value.user == ViewOf(users[e], now)
      ensures VerifyToken(refreshToken, refreshSecretEnv, expired).Ok? && "userId" !in refreshToken.claims ==>
        r == Err(CannotFindUser)
      ensures VerifyToken(refreshToken, refreshSecretEnv, expired).Ok? && "userId" in refreshToken.claims ==>
        (r.Ok? <==> exists e | e in users :: users[e].userId == refreshToken.claims["userId"])
    {
      var decoded := VerifyToken(refreshToken, refreshSecretEnv, expired);
      if decoded.Err? {
        return Err(decoded.error);
      }
      var userId := Claim(decoded.value, "userId");
      var userRole := Claim(decoded.value, "role");
      var user := FindByUserId(userId);
      if user.None? {
        return Err(CannotFindUser);
      }
      var accessToken := Token(RefreshedClaims(userId, userRole), AccessSecret(), AccessTtl);
      r := Ok(RefreshResponse(accessToken, ViewOf(user.value, now)));
    }

    /** `refreshAccessToken(token)` as evidently intended: verified with the same secret, fallback
        included, that signed the refresh token, and issuing the payload `{ userId, role }`. */
    method RefreshAccessTokenIntended(refreshToken: Token, expired: bool, now: int) returns (r: Result<RefreshResponse>)
      ensures VerifyToken(refreshToken, Some(RefreshSecret()), expired).Err? ==>
        r == Err(VerifyToken(refreshToken, Some(RefreshSecret()), expired).error)
      ensures r.Ok? ==>
        var claims := refreshToken.claims;
        && VerifyToken(refreshToken, Some(RefreshSecret()), expired).Ok?
        && "userId" in claims
        && r.value.accessToken == Token(RefreshedClaimsIntended(Claim(claims, "userId"), Claim(claims, "role")), AccessSecret(), AccessTtl)
        && exists e | e in users :: users[e].userId == claims["userId"] && r.value.user == ViewOf(users[e], now)
      ensures VerifyToken(refreshToken, Some(RefreshSecret()), expired).Ok? && "userId" !in refreshToken.claims ==>
        r == Err(CannotFindUser)
      ensures VerifyToken(refreshToken, Some(RefreshSecret()), expired).Ok? && "userId" in refreshToken.claims ==>
        (r.Ok? <==> exists e | e in users :: users[e].userId == refreshToken.claims["userId"])
    {
      var decoded := VerifyToken(refreshToken, Some(RefreshSecret()), expired);
      if decoded.Err? {
        return Err(decoded.error);
      }
      var userId := Claim(decoded.value, "userId");
      var userRole := Claim(decoded.value, "role");
      var user := FindByUserId(userId);
      if user.None? {
        return Err(CannotFindUser);
      }
      var accessToken := Token(RefreshedClaimsIntended(userId, userRole), AccessSecret(), AccessTtl);
      r := Ok(RefreshResponse(accessToken, ViewOf(user.value, now)));
    }
  }

  const Alice := "alice@example.com"

  function BcryptStandIn(password: string): string {
    "bcrypt:" + password
  }

  /** Alice's sign-up as a plain user. */
  function AliceRequest(): RegistrationRequest {
    UserRequest(UserRegistration(Alice, "Secret123", "user", "Alice"))
  }

  /** Registers Alice on an empty `svc` and reads the code from the mail she was sent. */
  method RegisterAlice(svc: AuthService, random: real) returns (code: string)
    requires svc.Valid() && svc.kv == map[] && svc.users == map[] && svc.hash == BcryptStandIn
    requires 0.0 <= random < 1.0
    modifies svc
    ensures code == OtpFromRandom(random)
    ensures svc.Valid() && svc.users == map[] && svc.hash == BcryptStandIn
    ensures svc.outbox == old(svc.outbox) + [Mail(Alice, code)]
    ensures svc.OtpMatches(Alice, code)
    ensures svc.Pending(Alice) == Some(SessionOf(AliceRequest(), BcryptStandIn("Secret123")))
    ensures HasRequiredFields(IntendedSessionFields(svc.Pending(Alice).value))
  {
    var registered := svc.Register(AliceRequest(), random, None);
    code := svc.outbox[|svc.outbox| - 1].otp;
  }

  /** Verifies Alice's pending registration with the code she was mailed: her account is
      created under subject "uuid-1", and both her OTP and her session are consumed. */
  method VerifyAlice(svc: AuthService, code: string) returns (verified: Result<LoginResponse>)
    requires svc.Valid() && svc.users == map[] && svc.hash == BcryptStandIn
    requires svc.OtpMatches(Alice, code)
    requires svc.Pending(Alice) == Some(SessionOf(AliceRequest(), BcryptStandIn("Secret123")))
    modifies svc
    ensures svc.Valid() && svc.hash == BcryptStandIn
    ensures verified.Ok? && verified.value.user.PlainView? && verified.value.user.Base().email == Alice
    ensures OtpKey(Alice) !in svc.kv && svc.users.Keys == {Alice}
    ensures svc.users[Alice].userId == "uuid-1" && svc.users[Alice].role == "user"
    ensures svc.Compare("Secret123", svc.users[Alice].password)
  {
    assert HasRequiredFields(IntendedSessionFields(svc.Pending(Alice).value));
    verified := svc.VerifyOtpIntended(Alice, code, "uuid-1", "oid-1", 0, true);
  }

  /** Registration followed by verification with the mailed code succeeds once; the OTP was
      consumed, so the same code is refused afterwards; the account can then log in, and a second
      registration of the address is refused. */
  method RegisterVerifyLogin()
    returns (verified: Result<LoginResponse>, again: Result<LoginResponse>, login: Result<LoginResponse>, reregister: Result<()>)
    ensures verified.Ok? && verified.value.user.PlainView? && verified.value.user.Base().email == Alice
    ensures again == Err(OtpExpired)
    ensures login.Ok? && login.value.accessToken.claims == map["userId" := "uuid-1", "role" := "user"]
    ensures reregister == Err(EmailExists)
  {
    var svc := new AuthService(BcryptStandIn, None, None);
    var code := RegisterAlice(svc, 0.5);
    verified := VerifyAlice(svc, code);
    again := svc.VerifyOtpIntended(Alice, code, "uuid-2", "oid-2", 1, true);
    login := svc.Login(Alice, "Secret123", 2);
    reregister := svc.Register(AliceRequest(), 0.25, None);
  }

  /** As written, a registration that went through can never be verified: the correct code meets
      the re-validation of the stored session and fails with "Missing required fields". */
  method RegisteredUserCannotVerify() returns (r: Result<LoginResponse>)
    ensures r == Err(MissingRequiredFields)
  {
    var svc := new AuthService(BcryptStandIn, None, None);
    var data := AliceRequest();
    var registered := svc.Register(data, 0.5, None);
    r := svc.VerifyOtp(Alice, OtpFromRandom(0.5), "uuid-1");
  }

  /** A resend replaces the code: the first code is then refused and the new one accepted. */
  method ResendReplacesCode() returns (stale: Result<LoginResponse>, current: Result<LoginResponse>)
    ensures stale == Err(InvalidOtp)
    ensures current.Ok?
  {
    var svc := new AuthService(BcryptStandIn, None, None);
    var first := RegisterAlice(svc, 0.0);
    var second := OtpFromRandom(0.5);
    OtpsDiffer(0.0, 0.5);
    var session := SessionOf(AliceRequest(), BcryptStandIn("Secret123"));
    var resent := svc.ResendOtp(Alice, 0.5, None);
    assert svc.Pending(Alice) == Some(session);
    assert svc.OtpMatches(Alice, second) && !svc.OtpMatches(Alice, first);
    stale := svc.VerifyOtpIntended(Alice, first, "uuid-1", "oid-1", 0, true);
    assert svc.Pending(Alice) == Some(session) && svc.OtpMatches(Alice, second);
    current := VerifyAlice(svc, second);
  }

  /** A failed email send leaves no pending registration behind, so verification finds no OTP. */
  method FailedSendStoresNothing() returns (registered: Result<()>, verified: Result<LoginResponse>)
    ensures registered == Err("smtp down")
    ensures verified == Err(OtpExpired)
  {
    var svc := new AuthService(BcryptStandIn, None, None);
    var data := AliceRequest();
    registered := svc.Register(data, 0.5, Some("smtp down"));
    verified := svc.VerifyOtpIntended(Alice, OtpFromRandom(0.5), "uuid-1", "oid-1", 0, true);
  }

  /** Registers and verifies Alice on `svc`, then logs her in. */
  method RegisterAndLogin(svc: AuthService) returns (login: Result<LoginResponse>)
    requires svc.Valid() && svc.kv == map[] && svc.users == map[] && svc.hash == BcryptStandIn
    modifies svc
    ensures svc.Valid()
    ensures Alice in svc.users && svc.users[Alice].userId == "uuid-1" && svc.users[Alice].role == "user"
    ensures login.Ok? && login.value.refreshToken == svc.RefreshToken(svc.users[Alice])
    ensures login.value.accessToken.claims == SubjectClaims(svc.users[Alice])
  {
    var code := RegisterAlice(svc, 0.5);
    var verified := VerifyAlice(svc, code);
    login := svc.Login(Alice, "Secret123", 1);
  }

  /** As written, with `REFRESH_TOKEN_SECRET` unset a refresh token from login is rejected; the
      intended refresh accepts it and returns an access token with the login's claims. */
  method RefreshWithoutSecret() returns (refreshed: Result<RefreshResponse>, intended: Result<RefreshResponse>)
    ensures refreshed == Err("secret or public key must be provided")
    ensures intended.Ok? && intended.value.accessToken.claims == map["userId" := "uuid-1", "role" := "user"]
  {
    var svc := new AuthService(BcryptStandIn, None, None);
    var login := RegisterAndLogin(svc);
    var user := svc.users[Alice];
    var token := login.value.refreshToken;
    assert VerifyToken(token, Some(svc.RefreshSecret()), false).Ok?;
    assert "userId" in token.claims && user.userId == token.claims["userId"];
    refreshed := svc.RefreshAccessToken(token, false, 2);
    intended := svc.RefreshAccessTokenIntended(token, false, 2);
    RefreshIntendedKeepsClaims(user);
    assert intended.value.accessToken.claims == SubjectClaims(user);
  }

  /** As written, with the secret set, a refreshed access token has lost the "role" claim that
      the login's access token carried; the intended refresh keeps the login's claims. */
  method RefreshWithSecret()
    returns (login: Result<LoginResponse>, refreshed: Result<RefreshResponse>, intended: Result<RefreshResponse>)
    ensures login.Ok? && "role" in login.value.accessToken.claims
    ensures refreshed.Ok? && "role" !in refreshed.value.accessToken.claims
    ensures intended.Ok? && intended.value.accessToken.claims == login.value.accessToken.claims
  {
    var svc := new AuthService(BcryptStandIn, Some("access-key"), Some("refresh-key"));
    login := RegisterAndLogin(svc);
    var user := svc.users[Alice];
    assert "userId" in login.value.refreshToken.claims;
    refreshed := svc.RefreshAccessToken(login.value.refreshToken, false, 2);
    intended := svc.RefreshAccessTokenIntended(login.value.refreshToken, false, 2);
    RefreshIntendedKeepsClaims(user);
  }
}
