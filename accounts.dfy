/** The account and two-factor enrolment transitions of `AccountService`,
    as functions from the users table before a call to the table after it,
    plus the two string builders the service uses: the confirmation link
    (`BuildCallbackUrl`) and the `otpauth://` provisioning URI. Foreign
    results (`IdentityResult`s, generated keys, tokens and recovery codes,
    whether an email went out) are parameters. */
module Accounts {
  import opened Wrappers
  import opened Strings
  import opened UriEscaping
  import opened Users
  import Sessions

  const EmailAlreadyRegistered := "Email is already registered."
  const ConfirmationNotSent := "User created but failed to send confirmation email."
  const SendConfirmationFailed := "Failed to send confirmation email."
  const UserNotFound := "User not found."
  const ConfirmEmailUnexpected := "An unexpected error occurred while confirming email."
  const PasswordAlreadySet := "Password already set. Use change password flow."
  const SetupFailed := "Failed to generate authenticator setup."
  const InvalidVerificationCode := "Invalid verification code."
  /** The issuer when neither `Identity:Issuer` nor `AppSettings:AppName` is configured. */
  const DefaultIssuer := "AHIS"
  const RecoveryCodeCount := 10
  const ConfirmEmailPath := "account/confirm-email"
  const OtpAuthPrefix := "otpauth://totp/"

  /** `IdentityResult`. */
  datatype IdentityResult = Succeeded | Failed(errors: seq<string>)

  /** The failure message built from an `IdentityResult`'s error descriptions. */
  function ErrorText(errors: seq<string>): string {
    Join(errors, ';')
  }

  datatype Email = Email(to: string, subject: string, body: string)

  /** `ProfileUpdateDto`. */
  datatype ProfileUpdate = ProfileUpdate(
    firstName: Option<string>, lastName: Option<string>, dateOfBirth: Option<int>,
    phoneNumber: Option<string>, markAccountConfigured: bool)

  /** `AuthenticatorSetupDto`. */
  datatype AuthenticatorSetup = AuthenticatorSetup(key: string, provisionUri: string)

  /** The users table after a call, and what the call returned. */
  datatype AccountOutcome<T> = AccountOutcome(users: seq<ApplicationUser>, result: Result<T>)

  // ------------------------------------------------------- string builders

  predicate StartsWithSlash(s: string) {
    |s| > 0 && s[0] == '/'
  }

  function QueryPair(kv: (string, string)): string {
    EscapeDataString(kv.0) + "=" + EscapeDataString(kv.1)
  }

  function QueryPairs(query: seq<(string, string)>): seq<string> {
    seq(|query|, i requires 0 <= i < |query| => QueryPair(query[i]))
  }

  /** The escaped `key=value` pairs joined by '&'. */
  function QueryString(query: seq<(string, string)>): string {
    Join(QueryPairs(query), '&')
  }

  /** `BuildCallbackUrl`: the base without trailing slashes, exactly one '/',
      the path without its own leading slash, and '?' with the query only
      when there is a query. */
  function BuildCallbackUrl(baseUrl: string, path: string, query: seq<(string, string)>): (r: string)
    ensures r == TrimEndSlashes(baseUrl) + "/" + PathPart(path) + QueryPart(query)
  {
    var b := TrimEndSlashes(baseUrl);
    var head := b + (if StartsWithSlash(path) then "" else "/") + path;
    JoinsAsParts(b, path, query);
    if query == [] then head else head + "?" + QueryString(query)
  }

  lemma JoinsAsParts(b: string, path: string, query: seq<(string, string)>)
    ensures var head := b + (if StartsWithSlash(path) then "" else "/") + path;
      (if query == [] then head else head + "?" + QueryString(query)) == b + "/" + PathPart(path) + QueryPart(query)
  {
    var head := b + (if StartsWithSlash(path) then "" else "/") + path;
    HeadJoinsOneSlash(b, path);
    assert head + QueryPart([]) == head;
  }

  /** The path without its own leading slash. */
  function PathPart(path: string): string {
    if StartsWithSlash(path) then path[1..] else path
  }

  /** What follows the path: nothing, or '?' and the query string. */
  function QueryPart(query: seq<(string, string)>): string {
    if query == [] then "" else "?" + QueryString(query)
  }


  /** Joining the base and the path leaves exactly one '/' between them. */
  lemma HeadJoinsOneSlash(b: string, path: string)
    ensures b + (if StartsWithSlash(path) then "" else "/") + path == b + "/" + PathPart(path)
  {
    if StartsWithSlash(path) {
      assert path == "/" + path[1..];
      assert b + "" + path == b + "/" + path[1..];
    }
  }

  lemma CallbackUrlShape(baseUrl: string, path: string, query: seq<(string, string)>)
    ensures var r := BuildCallbackUrl(baseUrl, path, query);
      var b, p := TrimEndSlashes(baseUrl), PathPart(path);
      && |r| >= |b| + 1 + |p|
      && r[..|b|] == b && r[|b|] == '/' && r[|b| + 1..|b| + 1 + |p|] == p
      && (query == [] <==> |r| == |b| + 1 + |p|)
      && (query != [] ==> r[|b| + 1 + |p|] == '?' && r[|b| + 2 + |p|..] == QueryString(query))
  {
    var b, p, q := TrimEndSlashes(baseUrl), PathPart(path), QueryPart(query);
    var r := b + "/" + p + q;
    assert r[..|b|] == b;
    assert r[|b| + 1..|b| + 1 + |p|] == p;
    assert r[|b| + 1 + |p|..] == q;
  }

  /** The query string splits back into its pairs, and each pair into its
      escaped key and value, because escaping removes '&' and '='. */
  lemma QueryStringParses(query: seq<(string, string)>)
    requires |query| >= 1
    ensures Split(QueryString(query), '&') == QueryPairs(query)
    ensures forall i :: 0 <= i < |query| ==>
      Split(QueryPairs(query)[i], '=') == [EscapeDataString(query[i].0), EscapeDataString(query[i].1)]
  {
    var parts := QueryPairs(query);
    forall k | 0 <= k < |parts|
      ensures '&' !in parts[k]
    {
      var a, b := EscapeDataString(query[k].0), EscapeDataString(query[k].1);
      assert parts[k] == a + "=" + b;
    }
    SplitJoin(parts, '&');
    forall i | 0 <= i < |query|
      ensures Split(parts[i], '=') == [EscapeDataString(query[i].0), EscapeDataString(query[i].1)]
    {
      var pair := [EscapeDataString(query[i].0), EscapeDataString(query[i].1)];
      assert Join(pair, '=') == parts[i];
      SplitJoin(pair, '=');
    }
  }

  /** The issuer: `Identity:Issuer`, else `AppSettings:AppName`, else "AHIS". */
  function Issuer(identityIssuer: Option<string>, appName: Option<string>): (r: string)
    ensures identityIssuer.Some? ==> r == identityIssuer.value
    ensures identityIssuer.None? && appName.Some? ==> r == appName.value
    ensures identityIssuer.None? && appName.None? ==> r == DefaultIssuer
  {
    match identityIssuer
    case Some(i) => i
    case None => appName.GetOr(DefaultIssuer)
  }

  /** The path of the provisioning URI: `issuer:account`, both escaped. */
  function OtpLabel(issuer: string, account: string): string {
    OtpAuthPrefix + EscapeDataString(issuer) + ":" + EscapeDataString(account)
  }

  function OtpParams(issuer: string, key: string): string {
    "secret=" + key + "&issuer=" + EscapeDataString(issuer) + "&digits=6"
  }

  /** The provisioning URI an authenticator app scans: a TOTP URI whose last
      parameter fixes six digits. */
  function OtpAuthUri(issuer: string, account: string, key: string): (r: string)
    ensures |r| > |OtpAuthPrefix| + 9 && r[..|OtpAuthPrefix|] == OtpAuthPrefix
    ensures r[|r| - 9..] == "&digits=6"
  {
    var r := OtpLabel(issuer, account) + "?" + OtpParams(issuer, key);
    assert r[..|OtpAuthPrefix|] == OtpAuthPrefix;
    assert r[|r| - 9..] == "&digits=6";
    r
  }

  /** The URI splits back into its parts: issuer and account before '?', and
      the secret, issuer and digit count as '&'-separated parameters. */
  lemma OtpAuthUriParses(issuer: string, account: string, key: string)
    requires '?' !in key && '&' !in key
    ensures var ei, el := EscapeDataString(issuer), EscapeDataString(account);
      && Split(OtpAuthUri(issuer, account, key), '?') == [OtpLabel(issuer, account), OtpParams(issuer, key)]
      && Split(OtpLabel(issuer, account), ':') == ["otpauth", "//totp/" + ei, el]
      && Split(OtpParams(issuer, key), '&') == ["secret=" + key, "issuer=" + ei, "digits=6"]
  {
    var ei, el := EscapeDataString(issuer), EscapeDataString(account);
    LabelParses(ei, el);
    ParamsParse(key, ei);
    SplitTwo(OtpLabel(issuer, account), OtpParams(issuer, key), '?');
  }

  lemma LabelParses(ei: string, el: string)
    requires ':' !in ei && ':' !in el && '?' !in ei && '?' !in el
    ensures '?' !in OtpAuthPrefix + ei + ":" + el
    ensures Split(OtpAuthPrefix + ei + ":" + el, ':') == ["otpauth", "//totp/" + ei, el]
  {
    LabelHasNoQuery(ei, el);
    var a, b := "otpauth", "//totp/" + ei;
    LabelShape(ei, el);
    SplitThree(a, b, el, ':');
  }

  lemma LabelHasNoQuery(ei: string, el: string)
    requires '?' !in ei && '?' !in el
    ensures '?' !in OtpAuthPrefix + ei + ":" + el
  {
  }

  lemma LabelShape(ei: string, el: string)
    ensures OtpAuthPrefix + ei + ":" + el == "otpauth" + [':'] + ("//totp/" + ei) + [':'] + el
  {
  }

  lemma ParamsParse(key: string, ei: string)
    requires '&' !in key && '&' !in ei && '?' !in key && '?' !in ei
    ensures '?' !in "secret=" + key + "&issuer=" + ei + "&digits=6"
    ensures Split("secret=" + key + "&issuer=" + ei + "&digits=6", '&') == ["secret=" + key, "issuer=" + ei, "digits=6"]
  {
    ParamsHaveNoQuery(key, ei);
    ParamsShape(key, ei);
    SplitThree("secret=" + key, "issuer=" + ei, "digits=6", '&');
  }

  lemma ParamsHaveNoQuery(key: string, ei: string)
    requires '?' !in key && '?' !in ei
    ensures '?' !in "secret=" + key + "&issuer=" + ei + "&digits=6"
  {
  }

  lemma ParamsShape(key: string, ei: string)
    ensures "secret=" + key + "&issuer=" + ei + "&digits=6" == ("secret=" + key) + ['&'] + ("issuer=" + ei) + ['&'] + "digits=6"
  {
  }

  // -------------------------------------------------------- registration

  const ConfirmSubject := "Confirm your email"

  /** The link the confirmation email carries. */
  function ConfirmationLink(callbackBaseUrl: string, userId: string, encodedToken: string): string {
    BuildCallbackUrl(callbackBaseUrl, ConfirmEmailPath, [("userId", userId), ("token", encodedToken)])
  }

  /** The body of the confirmation email around its link. */
  function ConfirmationBody(link: string): string {
    "Please confirm your account by <a href=\"" + link + "\">clicking here</a>."
  }

  /** The confirmation link is the base, the confirm-email path and a query
      whose two parameters are the user id and the token, each escaped. */
  lemma ConfirmationLinkCarriesUserAndToken(baseUrl: string, userId: string, encodedToken: string)
    ensures var link := ConfirmationLink(baseUrl, userId, encodedToken);
      var b := TrimEndSlashes(baseUrl);
      var n := |b| + 2 + |ConfirmEmailPath|;
      && |link| > n && link[..n] == b + "/" + ConfirmEmailPath + "?"
      && Split(link[n..], '&') == ["userId=" + EscapeDataString(userId), "token=" + EscapeDataString(encodedToken)]
  {
    var query := [("userId", userId), ("token", encodedToken)];
    var b := TrimEndSlashes(baseUrl);
    var head := b + "/" + ConfirmEmailPath + "?";
    var q := QueryString(query);
    assert PathPart(ConfirmEmailPath) == ConfirmEmailPath;
    assert ConfirmationLink(baseUrl, userId, encodedToken) == head + q;
    ConfirmationQueryParses(userId, encodedToken);
    assert (head + q)[..|head|] == head && (head + q)[|head|..] == q;
  }

  /** The query of the confirmation link splits into its two parameters. */
  lemma ConfirmationQueryParses(userId: string, encodedToken: string)
    ensures var q := QueryString([("userId", userId), ("token", encodedToken)]);
      |q| > 0 && Split(q, '&') == ["userId=" + EscapeDataString(userId), "token=" + EscapeDataString(encodedToken)]
  {
    ConfirmationKeysUnescaped(userId, encodedToken);
    QueryOfTwoParses(("userId", userId), ("token", encodedToken));
  }

  /** The parameter names of the confirmation link appear unescaped. */
  lemma ConfirmationKeysUnescaped(userId: string, encodedToken: string)
    ensures QueryPair(("userId", userId)) == "userId=" + EscapeDataString(userId)
    ensures QueryPair(("token", encodedToken)) == "token=" + EscapeDataString(encodedToken)
  {
    UserIdKeyUnescaped(userId);
    TokenKeyUnescaped(encodedToken);
  }

  lemma UserIdKeyUnescaped(v: string)
    ensures QueryPair(("userId", v)) == "userId=" + EscapeDataString(v)
  {
    assert "userId" + "=" == "userId=";
    UnreservedKeyUnescaped("userId", v);
  }

  lemma TokenKeyUnescaped(v: string)
    ensures QueryPair(("token", v)) == "token=" + EscapeDataString(v)
  {
    assert "token" + "=" == "token=";
    UnreservedKeyUnescaped("token", v);
  }

  /** A query of two parameters splits back into its two escaped pairs. */
  lemma QueryOfTwoParses(a: (string, string), b: (string, string))
    ensures |QueryString([a, b])| > 0 && Split(QueryString([a, b]), '&') == [QueryPair(a), QueryPair(b)]
  {
    var qp := QueryPairs([a, b]);
    assert |qp| == 2 && qp[0] == QueryPair(a) && qp[1] == QueryPair(b);
    assert qp == [QueryPair(a), QueryPair(b)];
    JoinTwo(QueryPair(a), QueryPair(b), '&');
    PairHasNoAmpersand(a);
    PairHasNoAmpersand(b);
    SplitTwo(QueryPair(a), QueryPair(b), '&');
  }

  lemma PairHasNoAmpersand(kv: (string, string))
    ensures '&' !in QueryPair(kv)
  {
    var k, v := EscapeDataString(kv.0), EscapeDataString(kv.1);
    assert forall c :: c in k + "=" + v ==> c in k || c == '=' || c in v;
  }

  /** A parameter name made of unreserved characters appears in the query as
      it is; only the value is escaped. */
  lemma UnreservedKeyUnescaped(k: string, v: string)
    requires forall c :: c in k ==> IsUnreserved(c)
    ensures QueryPair((k, v)) == k + "=" + EscapeDataString(v)
  {
    assert forall i :: 0 <= i < |k| ==> k[i] in k;
    EscapeUnreservedIsIdentity(k);
  }

  /** `SendEmailConfirmationAsync`: the email it hands to the sender, addressed
      to the user and carrying the confirmation link for the user's id and
      the encoded token. `delivered` is false when the sender throws. */
  function SendEmailConfirmation(user: ApplicationUser, callbackBaseUrl: string, encodedToken: string,
                                 delivered: bool): (r: Result<Email>)
    ensures r.Ok? <==> delivered
    ensures r.Fail? ==> r.message == SendConfirmationFailed
    ensures r.Ok? ==>
      && r.value.to == user.email.GetOr("") && r.value.subject == ConfirmSubject
      && r.value.body == ConfirmationBody(ConfirmationLink(callbackBaseUrl, user.id, encodedToken))
  {
    var link := ConfirmationLink(callbackBaseUrl, user.id, encodedToken);
    if delivered then Ok(Email(user.email.GetOr(""), ConfirmSubject, ConfirmationBody(link)))
    else Fail(SendConfirmationFailed)
  }

  /** The users table after registration, what the call returned, and the
      confirmation email that went out, if any. */
  datatype RegisterOutcome = RegisterOutcome(users: seq<ApplicationUser>, result: Result<string>, sent: Option<Email>)

  /** `RegisterAsync`. `newId` is the id the new user gets, `create` what
      `CreateAsync` reports, `encodedToken` the encoded confirmation token,
      `delivered` whether the confirmation email went out, and
      `lockoutForNewUsers` the store's lockout option. */
  function Register(users: seq<ApplicationUser>, email: string, userName: string, callbackBaseUrl: string,
                    newId: string, create: IdentityResult, encodedToken: string, delivered: bool,
                    lockoutForNewUsers: bool, now: int): (o: RegisterOutcome)
    ensures FindByEmail(users, email).Some? ==> o == RegisterOutcome(users, Fail(EmailAlreadyRegistered), None)
    ensures FindByEmail(users, email).None? && create.Failed? ==>
      o == RegisterOutcome(users, Fail(ErrorText(create.errors)), None)
    ensures FindByEmail(users, email).None? && create.Succeeded? ==>
      o.users == users + [NewUser(newId, userName, email, lockoutForNewUsers, now)]
    ensures o.users != users ==> FindByEmail(users, email).None? && create.Succeeded?
    ensures o.result.Ok? <==> FindByEmail(users, email).None? && create.Succeeded? && delivered
    ensures o.result.Ok? ==> o.result.value == newId
    ensures FindByEmail(users, email).None? && create.Succeeded? && !delivered ==>
      o.result == Fail(ConfirmationNotSent)
    ensures o.sent.Some? <==> o.result.Ok?
    ensures o.sent.Some? ==>
      && o.sent.value.to == email && o.sent.value.subject == ConfirmSubject
      && o.sent.value.body == ConfirmationBody(ConfirmationLink(callbackBaseUrl, newId, encodedToken))
  {
    if FindByEmail(users, email).Some? then RegisterOutcome(users, Fail(EmailAlreadyRegistered), None)
    else if create.Failed? then RegisterOutcome(users, Fail(ErrorText(create.errors)), None)
    else
      var user := NewUser(newId, userName, email, lockoutForNewUsers, now);
      match SendEmailConfirmation(user, callbackBaseUrl, encodedToken, delivered)
      case Fail(_) => RegisterOutcome(users + [user], Fail(ConfirmationNotSent), None)
      case Ok(sent) => RegisterOutcome(users + [user], Ok(newId), Some(sent))
  }

  /** No two users share an email up to case. */
  predicate EmailsUnique(users: seq<ApplicationUser>) {
    forall j, k :: 0 <= j < k < |users| && users[j].email.Some? && users[k].email.Some? ==>
      !EqualsIgnoreCase(users[j].email.value, users[k].email.value)
  }

  lemma RegisterKeepsEmailsUnique(users: seq<ApplicationUser>, email: string, userName: string, callbackBaseUrl: string,
                                  newId: string, create: IdentityResult, encodedToken: string, delivered: bool,
                                  lockoutForNewUsers: bool, now: int)
    requires EmailsUnique(users)
    ensures EmailsUnique(Register(users, email, userName, callbackBaseUrl, newId, create, encodedToken, delivered,
                                  lockoutForNewUsers, now).users)
  {
    var o := Register(users, email, userName, callbackBaseUrl, newId, create, encodedToken, delivered, lockoutForNewUsers, now);
    if o.users != users {
      forall j | 0 <= j < |users| && users[j].email.Some?
        ensures !EqualsIgnoreCase(users[j].email.value, email)
      {
      }
    }
  }

  /** A freshly registered account, looked up by its email, reports an
      unconfirmed email, no password and no two-factor requirement. */
  lemma RegisteredAccountState(users: seq<ApplicationUser>, email: string, userName: string, callbackBaseUrl: string,
                               newId: string, encodedToken: string, delivered: bool, lockoutForNewUsers: bool, now: int)
    requires !IsBlank(email)
    requires FindByName(users, email).None? && FindByEmail(users, email).None?
    requires !EqualsIgnoreCase(userName, email)
    ensures var o := Register(users, email, userName, callbackBaseUrl, newId, Succeeded, encodedToken, delivered,
                              lockoutForNewUsers, now);
      var r := Sessions.CheckAccountState(o.users, email);
      && r.Ok? && r.value.userId == newId
      && !r.value.isEmailConfirmed && !r.value.isPasswordCreated && !r.value.requiresTwoFactor
  {
    var o := Register(users, email, userName, callbackBaseUrl, newId, Succeeded, encodedToken, delivered,
                      lockoutForNewUsers, now);
    var n := |users|;
    assert o.users[n].email == Some(email);
    assert FindByName(o.users, email).None?;
    assert FindByEmail(o.users, email) == Some(n);
  }

  // -------------------------------------------------- confirmation, password

  /** `ConfirmEmailAsync`. `decodes` is false when the token is not valid
      base64url, `confirm` is what `ConfirmEmailAsync` of the user manager
      reports. */
  function ConfirmEmail(users: seq<ApplicationUser>, userId: string, decodes: bool, confirm: IdentityResult,
                        now: int): (o: AccountOutcome<()>)
    ensures o.result.Fail? ==> o.users == users
    ensures FindById(users, userId).None? ==> o.result == Fail(UserNotFound)
    ensures FindById(users, userId).Some? && !decodes ==> o.result == Fail(ConfirmEmailUnexpected)
    ensures FindById(users, userId).Some? && decodes && confirm.Failed? ==> o.result == Fail(ErrorText(confirm.errors))
    ensures o.result.Ok? <==> FindById(users, userId).Some? && decodes && confirm.Succeeded?
    ensures o.result.Ok? ==> var i := FindById(users, userId).value;
      && o.users == users[i := users[i].(emailConfirmed := true, emailVerifiedAt := Some(now))]
  {
    match FindById(users, userId)
    case None => AccountOutcome(users, Fail(UserNotFound))
    case Some(i) =>
      if !decodes then AccountOutcome(users, Fail(ConfirmEmailUnexpected))
      else if confirm.Failed? then AccountOutcome(users, Fail(ErrorText(confirm.errors)))
      else AccountOutcome(users[i := users[i].(emailConfirmed := true, emailVerifiedAt := Some(now))], Ok(()))
  }

  /** `SetPasswordFirstTimeAsync`; `hash` is what `AddPasswordAsync` stores. */
  function SetPasswordFirstTime(users: seq<ApplicationUser>, userId: string, add: IdentityResult, hash: string): (o: AccountOutcome<()>)
    ensures o.result.Fail? ==> o.users == users
    ensures FindById(users, userId).None? ==> o.result == Fail(UserNotFound)
    ensures FindById(users, userId).Some? && users[FindById(users, userId).value].passwordHash.Some? ==>
      o.result == Fail(PasswordAlreadySet)
    ensures o.result.Ok? <==>
      FindById(users, userId).Some? && users[FindById(users, userId).value].passwordHash.None? && add.Succeeded?
    ensures o.result.Ok? ==> var i := FindById(users, userId).value;
      o.users == users[i := users[i].(passwordHash := Some(hash))]
  {
    match FindById(users, userId)
    case None => AccountOutcome(users, Fail(UserNotFound))
    case Some(i) =>
      if users[i].passwordHash.Some? then AccountOutcome(users, Fail(PasswordAlreadySet))
      else if add.Failed? then AccountOutcome(users, Fail(ErrorText(add.errors)))
      else AccountOutcome(users[i := users[i].(passwordHash := Some(hash))], Ok(()))
  }

  /** A confirmed email shows up in the account-state check of the sign-in
      flow, for the identifier that names the same user. */
  lemma ConfirmationReported(users: seq<ApplicationUser>, identifier: string, userId: string,
                             confirm: IdentityResult, now: int)
    requires !IsBlank(identifier)
    requires FindById(users, userId).Some? && FindByNameOrEmail(users, identifier) == FindById(users, userId)
    ensures var c := ConfirmEmail(users, userId, true, confirm, now);
      c.result.Ok? ==> Sessions.CheckAccountState(c.users, identifier).value.isEmailConfirmed
  {
    var c := ConfirmEmail(users, userId, true, confirm, now);
    if c.result.Ok? {
      var i := FindById(users, userId).value;
      LookupsReadOnlyKeys(users, c.users, identifier);
      assert FindByNameOrEmail(c.users, identifier) == Some(i);
    }
  }

  /** Likewise a first password. */
  lemma PasswordReported(users: seq<ApplicationUser>, identifier: string, userId: string, hash: string)
    requires !IsBlank(identifier)
    requires FindById(users, userId).Some? && FindByNameOrEmail(users, identifier) == FindById(users, userId)
    ensures var p := SetPasswordFirstTime(users, userId, Succeeded, hash);
      Sessions.CheckAccountState(p.users, identifier).value.isPasswordCreated
  {
    var p := SetPasswordFirstTime(users, userId, Succeeded, hash);
    var i := FindById(users, userId).value;
    if p.result.Ok? {
      LookupsReadOnlyKeys(users, p.users, identifier);
    }
    assert FindByNameOrEmail(p.users, identifier) == Some(i);
  }

  // ---------------------------------------------------------------- profile

  function TrimOption(s: Option<string>): (r: Option<string>)
    ensures r.None? <==> s.None?
  {
    match s
    case None => None
    case Some(v) => Some(Trim(v))
  }

  /** `UpdateProfileAsync`. The changes reach the table only when `UpdateAsync`
      succeeds. */
  function UpdateProfile(users: seq<ApplicationUser>, userId: string, dto: ProfileUpdate, update: IdentityResult,
                         now: int): (o: AccountOutcome<ProfileUpdate>)
    ensures o.result.Fail? ==> o.users == users
    ensures FindById(users, userId).None? ==> o.result == Fail(UserNotFound)
    ensures o.result.Ok? <==> FindById(users, userId).Some? && update.Succeeded?
    ensures o.result.Ok? ==> o.result.value == dto
    ensures o.result.Ok? ==> var i := FindById(users, userId).value;
      o.users == users[i := users[i].(firstName := TrimOption(dto.firstName), lastName := TrimOption(dto.lastName),
                                      dateOfBirth := dto.dateOfBirth, phoneNumber := dto.phoneNumber,
                                      isAccountConfigured := dto.markAccountConfigured, updatedAt := Some(now))]
  {
    match FindById(users, userId)
    case None => AccountOutcome(users, Fail(UserNotFound))
    case Some(i) =>
      if update.Failed? then AccountOutcome(users, Fail(ErrorText(update.errors)))
      else
        var u := users[i].(firstName := TrimOption(dto.firstName), lastName := TrimOption(dto.lastName),
                           dateOfBirth := dto.dateOfBirth, phoneNumber := dto.phoneNumber,
                           isAccountConfigured := dto.markAccountConfigured, updatedAt := Some(now));
        AccountOutcome(users[i := u], Ok(dto))
  }

  /** Stored names carry no surrounding white space, so submitting the stored
      names again stores the same names. */
  lemma ProfileNamesSettle(users: seq<ApplicationUser>, userId: string, dto: ProfileUpdate, now: int, later: int)
    requires FindById(users, userId).Some?
    ensures var o := UpdateProfile(users, userId, dto, Succeeded, now);
      var i := FindById(users, userId).value;
      var again := dto.(firstName := o.users[i].firstName, lastName := o.users[i].lastName);
      var o2 := UpdateProfile(o.users, userId, again, Succeeded, later);
      o2.users[i].firstName == o.users[i].firstName && o2.users[i].lastName == o.users[i].lastName
  {
    var o := UpdateProfile(users, userId, dto, Succeeded, now);
    var i := FindById(users, userId).value;
    LookupsReadOnlyKeys(users, o.users, userId);
    TrimOptionIdempotent(dto.firstName);
    TrimOptionIdempotent(dto.lastName);
  }

  lemma TrimOptionIdempotent(s: Option<string>)
    ensures TrimOption(TrimOption(s)) == TrimOption(s)
  {
    if s.Some? {
      TrimIdempotent(s.value);
    }
  }

  // ----------------------------------------------------------- two-factor

  /** The account name in the URI: the email, else the user name. */
  function SetupAccount(u: ApplicationUser): Option<string> {
    if u.email.Some? then u.email else u.userName
  }

  /** `GenerateAuthenticatorSetupAsync`. `key` is the key the user manager
      holds after resetting it. With neither email nor user name the URI
      cannot be escaped and the call fails. */
  function GenerateAuthenticatorSetup(users: seq<ApplicationUser>, userId: string, key: string,
                                      identityIssuer: Option<string>, appName: Option<string>): (o: AccountOutcome<AuthenticatorSetup>)
    ensures o.result.Fail? ==> o.users == users
    ensures FindById(users, userId).None? ==> o.result == Fail(UserNotFound)
    ensures o.result.Ok? ==> var i := FindById(users, userId).value;
      && o.result.value == AuthenticatorSetup(key, OtpAuthUri(Issuer(identityIssuer, appName), SetupAccount(users[i]).GetOr(""), key))
      && o.users == users[i := users[i].(authenticatorKey := Some(key), authenticatorUri := Some(o.result.value.provisionUri))]
      && o.users[i].twoFactorEnabled == users[i].twoFactorEnabled
    ensures o.result.Ok? <==> FindById(users, userId).Some? && SetupAccount(users[FindById(users, userId).value]).Some?
  {
    match FindById(users, userId)
    case None => AccountOutcome(users, Fail(UserNotFound))
    case Some(i) =>
      var account := SetupAccount(users[i]);
      if account.None? then AccountOutcome(users, Fail(SetupFailed))
      else
        var uri := OtpAuthUri(Issuer(identityIssuer, appName), account.value, key);
        AccountOutcome(users[i := users[i].(authenticatorKey := Some(key), authenticatorUri := Some(uri))],
                       Ok(AuthenticatorSetup(key, uri)))
  }

  /** `EnableAuthenticatorAsync`. `codeValid` is the provider's verdict on the
      code; `recovery` enumerates the codes the user manager generates. */
  function EnableAuthenticator(users: seq<ApplicationUser>, userId: string, codeValid: bool,
                               recovery: nat -> string, now: int): (o: AccountOutcome<seq<string>>)
    ensures o.result.Fail? ==> o.users == users
    ensures FindById(users, userId).None? ==> o.result == Fail(UserNotFound)
    ensures FindById(users, userId).Some? && !codeValid <==> o.result == Fail(InvalidVerificationCode)
    ensures o.result.Ok? <==> FindById(users, userId).Some? && codeValid
    ensures o.result.Ok? ==> forall k :: 0 <= k < |o.result.value| ==> o.result.value[k] == recovery(k)
    ensures o.result.Ok? ==> var i := FindById(users, userId).value;
      && |o.result.value| == RecoveryCodeCount
      && o.users == users[i := users[i].(twoFactorEnabled := true, twoFactorEnabledAt := Some(now),
                                        recoveryCodes := Some(o.result.value))]
  {
    match FindById(users, userId)
    case None => AccountOutcome(users, Fail(UserNotFound))
    case Some(i) =>
      if !codeValid then AccountOutcome(users, Fail(InvalidVerificationCode))
      else
        var codes := seq(RecoveryCodeCount, k requires 0 <= k < RecoveryCodeCount => recovery(k));
        AccountOutcome(users[i := users[i].(twoFactorEnabled := true, twoFactorEnabledAt := Some(now),
                                            recoveryCodes := Some(codes))], Ok(codes))
  }

  /** `DisableAuthenticatorAsync`. */
  function DisableAuthenticator(users: seq<ApplicationUser>, userId: string): (o: AccountOutcome<()>)
    ensures o.result.Fail? <==> FindById(users, userId).None?
    ensures o.result.Fail? ==> o == AccountOutcome(users, Fail(UserNotFound))
    ensures o.result.Ok? ==> var i := FindById(users, userId).value;
      && |o.users| == |users|
      && (forall k :: 0 <= k < |users| && k != i ==> o.users[k] == users[k])
      && !o.users[i].twoFactorEnabled && o.users[i].authenticatorKey.None? && o.users[i].authenticatorUri.None?
      && o.users[i].recoveryCodes.None? && o.users[i].twoFactorEnabledAt.None?
      && o.users[i] == users[i].(twoFactorEnabled := o.users[i].twoFactorEnabled,
                                 authenticatorKey := None, authenticatorUri := None,
                                 recoveryCodes := None, twoFactorEnabledAt := None)
  {
    match FindById(users, userId)
    case None => AccountOutcome(users, Fail(UserNotFound))
    case Some(i) =>
      AccountOutcome(users[i := users[i].(twoFactorEnabled := false, authenticatorKey := None, authenticatorUri := None,
                                          recoveryCodes := None, twoFactorEnabledAt := None)], Ok(()))
  }

  lemma DisableIdempotent(users: seq<ApplicationUser>, userId: string)
    ensures var once := DisableAuthenticator(users, userId);
      DisableAuthenticator(once.users, userId) == once
  {
    var once := DisableAuthenticator(users, userId);
    if once.result.Ok? {
      var i := FindById(users, userId).value;
      LookupsReadOnlyKeys(users, users[i := once.users[i]], userId);
      assert once.users[i := once.users[i]] == once.users;
    }
  }

  /** Setting up an authenticator with a non-blank key and then enabling it
      configures the authenticator and makes sign-in ask for a second factor;
      disabling undoes both. */
  lemma {:induction false} AuthenticatorLifecycle(users: seq<ApplicationUser>, userId: string, key: string,
                                                  identityIssuer: Option<string>, appName: Option<string>,
                                                  recovery: nat -> string, now: int)
    requires !IsBlank(key)
    requires var s := GenerateAuthenticatorSetup(users, userId, key, identityIssuer, appName); s.result.Ok?
    ensures var s := GenerateAuthenticatorSetup(users, userId, key, identityIssuer, appName);
      var e := EnableAuthenticator(s.users, userId, true, recovery, now);
      var d := DisableAuthenticator(e.users, userId);
      var i := FindById(users, userId).value;
      && !s.users[i].twoFactorEnabled == !users[i].twoFactorEnabled
      && e.result.Ok? && IsAuthenticatorConfigured(e.users[i]) && e.users[i].twoFactorEnabled
      && d.result.Ok? && !IsAuthenticatorConfigured(d.users[i]) && !d.users[i].twoFactorEnabled
  {
    var s := GenerateAuthenticatorSetup(users, userId, key, identityIssuer, appName);
    var i := FindById(users, userId).value;
    IdLookupReadsKeys(users, users[i := s.users[i]], userId);
    var e := EnableAuthenticator(s.users, userId, true, recovery, now);
    EnableConfigures(s.users, userId, i, key, recovery, now);
    DisableUnconfigures(e.users, userId, i);
  }

  /** Enabling with a valid code over a non-blank stored key configures the
      authenticator, and the user stays where the lookup finds it. */
  lemma EnableConfigures(users: seq<ApplicationUser>, userId: string, i: nat, key: string,
                         recovery: nat -> string, now: int)
    requires FindById(users, userId) == Some(i) && users[i].authenticatorKey == Some(key) && !IsBlank(key)
    ensures var e := EnableAuthenticator(users, userId, true, recovery, now);
      && e.result.Ok? && IsAuthenticatorConfigured(e.users[i]) && e.users[i].twoFactorEnabled
      && FindById(e.users, userId) == Some(i)
  {
    var e := EnableAuthenticator(users, userId, true, recovery, now);
    IdLookupReadsKeys(users, users[i := e.users[i]], userId);
    assert e.users[i].authenticatorKey == Some(key);
  }

  /** Disabling leaves the authenticator unconfigured and two-factor off. */
  lemma DisableUnconfigures(users: seq<ApplicationUser>, userId: string, i: nat)
    requires FindById(users, userId) == Some(i)
    ensures var d := DisableAuthenticator(users, userId);
      d.result.Ok? && !IsAuthenticatorConfigured(d.users[i]) && !d.users[i].twoFactorEnabled
  {
  }
}
