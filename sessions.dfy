/** The refresh-token session engine of `AuthenticationService`, as functions
    from the persisted state before a call to the persisted state after it.
    The class in `AuthenticationServices` performs the same steps in place and
    is proved equal to these functions; the lemmas here state what the engine
    promises. Times are `DateTime` ticks; the clock is the parameter `now`. */
module Sessions {
  import opened Wrappers
  import opened Seqs
  import opened Strings
  import opened Transactions
  import opened Users

  const TicksPerDay: int := 864_000_000_000
  /** `Jwt:AccessTokenExpirySeconds` when it is not configured. */
  const DefaultAccessTokenExpirySeconds: int := 3600
  /** `Jwt:RefreshTokenExpiryDays` when it is not configured. */
  const DefaultRefreshTokenExpiryDays: int := 30

  const InvalidEmail := "Invalid email."
  const InvalidCredentials := "Invalid credentials."
  const UserNotActive := "User is not active."
  const UserLockedOut := "User is locked out."
  const LoginFailed := "Login failed."
  const InvalidRefreshToken := "Invalid refresh token."
  const ReuseDetected := "Refresh token reuse detected. All sessions revoked."
  const ExpiredRefreshToken := "Expired refresh token."
  const UserNotFound := "User not found."
  const RefreshFailed := "Failed to refresh token."
  const TwoFactorNotEnabled := "Two-factor authentication is not enabled."
  const InvalidTwoFactorCode := "Invalid two-factor verification code."
  const VerifyFailed := "Verify 2FA failed."

  /** A row of the `RefreshTokens` table. */
  datatype RefreshToken = RefreshToken(
    id: int, userId: string, token: string, expiresAt: int, createdAt: int,
    isRevoked: bool, revokedAt: Option<int>)

  /** What `SignInManager.PasswordSignInAsync` reports. */
  datatype SignInResult = Succeeded | LockedOut | NotAllowed | TwoFactorRequired | Failed

  /** The configuration values the engine reads, `None` when absent. */
  datatype JwtSettings = JwtSettings(accessTokenExpirySeconds: Option<int>, refreshTokenExpiryDays: Option<int>)

  /** `AuthenticationResponseVM`; an unset property keeps its default. */
  datatype AuthResponse = AuthResponse(
    accessToken: string, expiresInSeconds: int, refreshToken: string,
    refreshTokenExpiresAt: int, userId: string, requiresTwoFactor: bool,
    isEmailConfirmed: bool, isPasswordCreated: bool)

  const EmptyResponse := AuthResponse("", 0, "", 0, "", false, false, false)

  /** The persisted state the engine changes: the table, the next identity
      value of its `Id` column, and the unit of work's transaction handle. */
  datatype TokenStore = TokenStore(rows: seq<RefreshToken>, nextId: int, tx: TxState)

  /** The state after a call, and what the call returned. */
  datatype Outcome<T> = Outcome(store: TokenStore, result: Result<T>)

  function ExpirySeconds(settings: JwtSettings): int {
    settings.accessTokenExpirySeconds.GetOr(DefaultAccessTokenExpirySeconds)
  }

  /** Expiry of a refresh token generated at `now`. */
  function RefreshExpiry(settings: JwtSettings, now: int): int {
    now + settings.refreshTokenExpiryDays.GetOr(DefaultRefreshTokenExpiryDays) * TicksPerDay
  }

  // ---------------------------------------------------------------- lookups

  /** The filter of `LogoutAsync`: same string, not revoked, `ExpiresAt > now`. */
  predicate LogoutMatch(row: RefreshToken, token: string, now: int) {
    row.token == token && !row.isRevoked && row.expiresAt > now
  }

  function FirstActive(rows: seq<RefreshToken>, token: string, now: int): (r: Option<nat>)
    ensures r.Some? ==> r.value < |rows| && LogoutMatch(rows[r.value], token, now)
    ensures r.Some? ==> forall j :: 0 <= j < r.value ==> !LogoutMatch(rows[j], token, now)
    ensures r.None? <==> forall j :: 0 <= j < |rows| ==> !LogoutMatch(rows[j], token, now)
  {
    FirstIndexOf(rows, (x: RefreshToken) => LogoutMatch(x, token, now))
  }

  /** The filter of `RefreshTokenAsync`: same owner and same string. */
  predicate Presented(row: RefreshToken, userId: string, token: string) {
    row.userId == userId && row.token == token
  }

  function FindPresented(rows: seq<RefreshToken>, userId: string, token: string): (r: Option<nat>)
    ensures r.Some? ==> r.value < |rows| && Presented(rows[r.value], userId, token)
    ensures r.Some? ==> forall j :: 0 <= j < r.value ==> !Presented(rows[j], userId, token)
    ensures r.None? <==> forall j :: 0 <= j < |rows| ==> !Presented(rows[j], userId, token)
  {
    FirstIndexOf(rows, (x: RefreshToken) => Presented(x, userId, token))
  }

  /** The filter of `RevokeRefreshTokensAsync`: the user's rows not yet revoked. */
  predicate Unrevoked(row: RefreshToken, userId: string) {
    row.userId == userId && !row.isRevoked
  }

  predicate HasUnrevoked(rows: seq<RefreshToken>, userId: string) {
    exists k :: 0 <= k < |rows| && Unrevoked(rows[k], userId)
  }

  /** A row as logout and rotation leave it: revoked, stamped with `now`. */
  function Revoked(row: RefreshToken, now: int): RefreshToken {
    row.(isRevoked := true, revokedAt := Some(now))
  }

  // ------------------------------------------------------------- operations

  /** `CheckAccountStateByEmailAsync`. */
  function CheckAccountState(users: seq<ApplicationUser>, identifier: string): (r: Result<AuthResponse>)
    ensures r.Fail? <==> IsBlank(identifier)
    ensures r.Fail? ==> r.message == InvalidEmail
    ensures !IsBlank(identifier) && FindByNameOrEmail(users, identifier).None? ==> r == Ok(EmptyResponse)
    ensures !IsBlank(identifier) && FindByNameOrEmail(users, identifier).Some? ==>
      var u := users[FindByNameOrEmail(users, identifier).value];
      && r.Ok? && r.value.userId == u.id
      && r.value.isEmailConfirmed == u.emailConfirmed
      && r.value.isPasswordCreated == u.passwordHash.Some?
      && r.value.requiresTwoFactor == u.twoFactorEnabled
      && r.value.accessToken == "" && r.value.refreshToken == ""
  {
    if IsBlank(identifier) then Fail(InvalidEmail)
    else match FindByNameOrEmail(users, identifier)
      case None => Ok(EmptyResponse)
      case Some(i) =>
        var u := users[i];
        Ok(EmptyResponse.(userId := u.id, isEmailConfirmed := u.emailConfirmed,
                          isPasswordCreated := u.passwordHash.Some?, requiresTwoFactor := u.twoFactorEnabled))
  }

  /** The row `StoreRefreshTokenAsync` adds. */
  function NewRow(s: TokenStore, userId: string, token: string, expiresAt: int, now: int): RefreshToken {
    RefreshToken(s.nextId, userId, token, expiresAt, now, false, None)
  }

  /** `rows` is `prefix` plus exactly one active row, the one `r` hands out. */
  predicate AppendsSession(prefix: seq<RefreshToken>, rows: seq<RefreshToken>, r: AuthResponse) {
    && |rows| == |prefix| + 1 && rows[..|prefix|] == prefix
    && rows[|prefix|].userId == r.userId
    && rows[|prefix|].token == r.refreshToken
    && rows[|prefix|].expiresAt == r.refreshTokenExpiresAt
    && !rows[|prefix|].isRevoked && rows[|prefix|].revokedAt.None?
    && !r.requiresTwoFactor
  }

  /** Store the new row, save, commit, and answer with the new session. The
      transaction is already begun. */
  function Persist(s: TokenStore, userId: string, access: string, issued: string,
                   settings: JwtSettings, now: int): (o: Outcome<AuthResponse>)
    ensures o.result.Ok? && AppendsSession(s.rows, o.store.rows, o.result.value)
    ensures o.result.value.userId == userId && o.result.value.accessToken == access
    ensures o.store.nextId == s.nextId + 1 && o.store.tx == Commit(Save(s.tx))
    ensures o.result.value.refreshTokenExpiresAt == RefreshExpiry(settings, now)
    ensures o.result.value.refreshToken == issued && o.result.value.expiresInSeconds == ExpirySeconds(settings)
    ensures o.store.rows[|s.rows|].token == issued && o.store.rows[|s.rows|].id == s.nextId
    ensures o.store.rows[|s.rows|].createdAt == now
  {
    var expiresAt := RefreshExpiry(settings, now);
    Outcome(
      TokenStore(s.rows + [NewRow(s, userId, issued, expiresAt, now)], s.nextId + 1, Commit(Save(s.tx))),
      Ok(AuthResponse(access, ExpirySeconds(settings), issued, expiresAt, userId, false, false, false)))
  }

  predicate CanSignIn(u: ApplicationUser) {
    u.isActive && !u.isDeleted
  }

  /** `LoginAsync`. `signIn` is the sign-in manager's verdict on the password;
      `jwt` is the minted access token, `None` when minting throws. */
  function Login(users: seq<ApplicationUser>, s: TokenStore, identifier: string, signIn: SignInResult,
                 jwt: Option<string>, issued: string, settings: JwtSettings, now: int): (o: Outcome<AuthResponse>)
    ensures o.result.Fail? ==> o.store.rows == s.rows && o.store.nextId == s.nextId
    ensures o.result.Ok? && o.result.value.requiresTwoFactor ==>
      o.store == s && o.result.value.accessToken == "" && o.result.value.refreshToken == ""
    ensures o.result.Ok? && !o.result.value.requiresTwoFactor ==>
      AppendsSession(s.rows, o.store.rows, o.result.value) && o.store.tx == Commit(Save(Begin(s.tx)))
    ensures var f := FindByNameOrEmail(users, identifier);
      && (o.result == Fail(InvalidCredentials) <==>
           f.None? || (CanSignIn(users[f.value]) && (signIn == NotAllowed || signIn == Failed)))
      && (o.result == Fail(UserNotActive) <==> f.Some? && !CanSignIn(users[f.value]))
      && (o.result == Fail(UserLockedOut) <==> f.Some? && CanSignIn(users[f.value]) && signIn == LockedOut)
      && (o.result == Fail(LoginFailed) <==>
           f.Some? && CanSignIn(users[f.value]) && signIn == Succeeded && jwt.None?)
      && (o.result.Ok? ==> f.Some? && o.result.value.userId == users[f.value].id)
      && (o.result.Ok? && o.result.value.requiresTwoFactor <==>
           f.Some? && CanSignIn(users[f.value]) && signIn == TwoFactorRequired)
      && (o.result.Ok? && !o.result.value.requiresTwoFactor <==>
           f.Some? && CanSignIn(users[f.value]) && signIn == Succeeded && jwt.Some?)
    ensures o.result.Ok? && !o.result.value.requiresTwoFactor ==>
      && o.result.value.accessToken == jwt.value && o.result.value.refreshToken == issued
      && o.result.value.refreshTokenExpiresAt == RefreshExpiry(settings, now)
      && o.store.rows[|s.rows|].id == s.nextId && o.store.nextId == s.nextId + 1
    ensures o.result == Fail(LoginFailed) ==> o.store.tx == Rollback(s.tx)
    ensures o.result.Fail? && o.result != Fail(LoginFailed) ==> o.store == s
  {
    match FindByNameOrEmail(users, identifier)
    case None => Outcome(s, Fail(InvalidCredentials))
    case Some(i) =>
      var u := users[i];
      if !u.isActive || u.isDeleted then Outcome(s, Fail(UserNotActive))
      else if signIn == LockedOut then Outcome(s, Fail(UserLockedOut))
      else if signIn == TwoFactorRequired then
        Outcome(s, Ok(EmptyResponse.(requiresTwoFactor := true, userId := u.id)))
      else if signIn != Succeeded then Outcome(s, Fail(InvalidCredentials))
      else if jwt.None? then Outcome(s.(tx := Rollback(s.tx)), Fail(LoginFailed))
      else Persist(s.(tx := Begin(s.tx)), u.id, jwt.value, issued, settings, now)
  }

  /** `LogoutAsync`: revokes the first row that is still usable, if any. */
  function Logout(s: TokenStore, token: string, now: int): (r: TokenStore)
    ensures r.nextId == s.nextId && r.tx == s.tx && |r.rows| == |s.rows|
    ensures forall k :: 0 <= k < |s.rows| && r.rows[k] != s.rows[k] ==>
      && LogoutMatch(s.rows[k], token, now)
      && (forall j :: 0 <= j < k ==> !LogoutMatch(s.rows[j], token, now))
      && r.rows[k] == Revoked(s.rows[k], now)
    ensures (exists k :: 0 <= k < |s.rows| && LogoutMatch(s.rows[k], token, now)) ==>
      exists k :: 0 <= k < |s.rows| && LogoutMatch(s.rows[k], token, now) && r.rows[k] == Revoked(s.rows[k], now)
    ensures (forall k :: 0 <= k < |s.rows| ==> !LogoutMatch(s.rows[k], token, now)) ==> r == s
  {
    match FirstActive(s.rows, token, now)
    case None => s
    case Some(i) => s.(rows := s.rows[i := Revoked(s.rows[i], now)])
  }

  /** Every row of `userId` revoked; `RevokedAt` is not touched. */
  function RevokeFamily(rows: seq<RefreshToken>, userId: string): (r: seq<RefreshToken>)
    ensures |r| == |rows|
    ensures forall k :: 0 <= k < |rows| ==>
      r[k] == if rows[k].userId == userId then rows[k].(isRevoked := true) else rows[k]
  {
    if rows == [] then []
    else
      var head := if rows[0].userId == userId then rows[0].(isRevoked := true) else rows[0];
      var tail := RevokeFamily(rows[1..], userId);
      assert forall k :: 1 <= k < |rows| ==> rows[k] == rows[1..][k - 1];
      [head] + tail
  }

  /** `RevokeRefreshTokensAsync`. With nothing to revoke it returns before
      committing, so the transaction it began stays open. */
  function RevokeRefreshTokens(s: TokenStore, userId: string): (o: Outcome<()>)
    ensures o.result == Ok(()) && o.store.nextId == s.nextId && |o.store.rows| == |s.rows|
    ensures forall k :: 0 <= k < |s.rows| ==>
      && (s.rows[k].userId == userId ==> o.store.rows[k].isRevoked)
      && (s.rows[k].userId != userId ==> o.store.rows[k] == s.rows[k])
      && o.store.rows[k] == s.rows[k].(isRevoked := o.store.rows[k].isRevoked)
    ensures !HasUnrevoked(s.rows, userId) ==> o.store.rows == s.rows && o.store.tx == Begin(s.tx)
    ensures HasUnrevoked(s.rows, userId) ==> o.store.tx == Commit(Save(Begin(s.tx)))
  {
    var tx := Begin(s.tx);
    if !HasUnrevoked(s.rows, userId) then Outcome(s.(tx := tx), Ok(()))
    else Outcome(TokenStore(RevokeFamily(s.rows, userId), s.nextId, Commit(Save(tx))), Ok(()))
  }

  /** `RefreshTokenAsync`: rotation with reuse detection. */
  function Refresh(users: seq<ApplicationUser>, s: TokenStore, userId: string, token: string,
                   jwt: Option<string>, issued: string, settings: JwtSettings, now: int): (o: Outcome<AuthResponse>)
    ensures var f := FindPresented(s.rows, userId, token);
      && (o.result == Fail(InvalidRefreshToken) <==> f.None?)
      && (o.result == Fail(ReuseDetected) <==> f.Some? && s.rows[f.value].isRevoked)
      && (o.result == Fail(ExpiredRefreshToken) <==>
           f.Some? && !s.rows[f.value].isRevoked && s.rows[f.value].expiresAt < now)
      && (o.result == Fail(UserNotFound) <==>
           f.Some? && !s.rows[f.value].isRevoked && s.rows[f.value].expiresAt >= now
           && FindById(users, userId).None?)
      && (o.result.Ok? <==>
           f.Some? && !s.rows[f.value].isRevoked && s.rows[f.value].expiresAt >= now
           && FindById(users, userId).Some? && jwt.Some?)
      && (o.result == Fail(RefreshFailed) <==>
           f.Some? && !s.rows[f.value].isRevoked && s.rows[f.value].expiresAt >= now
           && FindById(users, userId).Some? && jwt.None?)
      && (o.result.Ok? ==>
           && o.result.value.userId == userId
           && AppendsSession(s.rows[f.value := Revoked(s.rows[f.value], now)], o.store.rows, o.result.value)
           && o.store.tx == Commit(Save(Begin(s.tx))))
    ensures o.result.Ok? ==>
      && o.result.value.accessToken == jwt.value && o.result.value.refreshToken == issued
      && o.result.value.refreshTokenExpiresAt == RefreshExpiry(settings, now)
      && o.store.rows[|s.rows|].id == s.nextId && o.store.nextId == s.nextId + 1
    ensures o.result.Fail? && o.result != Fail(ReuseDetected) ==>
      o.store.rows == s.rows && o.store.nextId == s.nextId
    ensures o.result == Fail(ReuseDetected) ==> o.store == RevokeRefreshTokens(s, userId).store
    ensures o.result.Fail? && o.result != Fail(ReuseDetected) && o.result != Fail(RefreshFailed) ==> o.store == s
    ensures o.result == Fail(RefreshFailed) ==> o.store.tx == Rollback(Begin(s.tx))
  {
    match FindPresented(s.rows, userId, token)
    case None => Outcome(s, Fail(InvalidRefreshToken))
    case Some(i) =>
      if s.rows[i].isRevoked then Outcome(RevokeRefreshTokens(s, userId).store, Fail(ReuseDetected))
      else if s.rows[i].expiresAt < now then Outcome(s, Fail(ExpiredRefreshToken))
      else if FindById(users, userId).None? then Outcome(s, Fail(UserNotFound))
      else
        var tx := Begin(s.tx);
        if jwt.None? then Outcome(s.(tx := Rollback(tx)), Fail(RefreshFailed))
        else Persist(TokenStore(s.rows[i := Revoked(s.rows[i], now)], s.nextId, tx),
                     userId, jwt.value, issued, settings, now)
  }

  /** `VerifyTwoFactorAsync`. It begins the transaction before its checks, and
      its early returns leave that transaction open. `codeValid` is the
      authenticator provider's verdict on the code. */
  function VerifyTwoFactor(users: seq<ApplicationUser>, s: TokenStore, userId: string, codeValid: bool,
                           jwt: Option<string>, issued: string, settings: JwtSettings, now: int): (o: Outcome<AuthResponse>)
    ensures var f := FindById(users, userId);
      && (o.result == Fail(UserNotFound) <==> f.None?)
      && (o.result == Fail(TwoFactorNotEnabled) <==> f.Some? && !users[f.value].twoFactorEnabled)
      && (o.result == Fail(InvalidTwoFactorCode) <==> f.Some? && users[f.value].twoFactorEnabled && !codeValid)
      && (o.result == Fail(VerifyFailed) <==>
           f.Some? && users[f.value].twoFactorEnabled && codeValid && jwt.None?)
      && (o.result.Ok? <==> f.Some? && users[f.value].twoFactorEnabled && codeValid && jwt.Some?)
    ensures o.result.Fail? ==> o.store.rows == s.rows && o.store.nextId == s.nextId
    ensures o.result.Fail? && o.result != Fail(VerifyFailed) ==> o.store.tx == Begin(s.tx) && o.store.tx.open
    ensures o.result == Fail(VerifyFailed) ==> o.store.tx == Rollback(Begin(s.tx))
    ensures o.result.Ok? ==>
      && o.result.value.userId == userId
      && AppendsSession(s.rows, o.store.rows, o.result.value)
      && o.store.tx == Commit(Save(Begin(s.tx)))
      && o.result.value.accessToken == jwt.value && o.result.value.refreshToken == issued
      && o.store.rows[|s.rows|].id == s.nextId && o.store.nextId == s.nextId + 1
  {
    var tx := Begin(s.tx);
    match FindById(users, userId)
    case None => Outcome(s.(tx := tx), Fail(UserNotFound))
    case Some(j) =>
      if !users[j].twoFactorEnabled then Outcome(s.(tx := tx), Fail(TwoFactorNotEnabled))
      else if !codeValid then Outcome(s.(tx := tx), Fail(InvalidTwoFactorCode))
      else if jwt.None? then Outcome(s.(tx := Rollback(tx)), Fail(VerifyFailed))
      else Persist(s.(tx := tx), users[j].id, jwt.value, issued, settings, now)
  }
}
