/** What the refresh-token engine promises across calls: rotation makes the
    old token a reuse signal, logout after login ends exactly that session,
    the expiry boundary is inclusive for rotation and exclusive for logout,
    and over any sequence of requests a row, once revoked, never changes. */
module SessionProperties {
  import opened Wrappers
  import opened Transactions
  import opened Users
  import opened Sessions

  /** After a successful rotation, presenting the same token again is reuse:
      the call fails and leaves every row of that user revoked, the newly
      issued one included. */
  lemma {:induction false} ReplayAfterRotation(
    users: seq<ApplicationUser>, s: TokenStore, userId: string, token: string,
    jwt: Option<string>, issued: string, settings: JwtSettings, now: int,
    jwt2: Option<string>, issued2: string, later: int)
    requires Refresh(users, s, userId, token, jwt, issued, settings, now).result.Ok?
    ensures var o := Refresh(users, s, userId, token, jwt, issued, settings, now);
      var o2 := Refresh(users, o.store, userId, token, jwt2, issued2, settings, later);
      && o2.result == Fail(ReuseDetected)
      && forall k :: 0 <= k < |o2.store.rows| && o2.store.rows[k].userId == userId ==> o2.store.rows[k].isRevoked
  {
    var o := Refresh(users, s, userId, token, jwt, issued, settings, now);
    var i := FindPresented(s.rows, userId, token).value;
    var mid := s.rows[i := Revoked(s.rows[i], now)];
    assert o.store.rows[..|mid|] == mid;
    assert o.store.rows[i] == mid[i];
    assert forall j :: 0 <= j < i ==> o.store.rows[j] == mid[j] == s.rows[j];
    assert Presented(o.store.rows[i], userId, token);
    assert FindPresented(o.store.rows, userId, token) == Some(i);
  }

  /** Logging out with the token a login just issued revokes exactly that
      row, provided the token string is new to the table and refresh tokens
      live for a positive number of days. */
  lemma LoginThenLogout(
    users: seq<ApplicationUser>, s: TokenStore, identifier: string, signIn: SignInResult,
    jwt: Option<string>, issued: string, settings: JwtSettings, now: int)
    requires forall k :: 0 <= k < |s.rows| ==> s.rows[k].token != issued
    requires settings.refreshTokenExpiryDays.GetOr(DefaultRefreshTokenExpiryDays) > 0
    requires var o := Login(users, s, identifier, signIn, jwt, issued, settings, now);
      o.result.Ok? && !o.result.value.requiresTwoFactor
    ensures var o := Login(users, s, identifier, signIn, jwt, issued, settings, now);
      var after := Logout(o.store, issued, now);
      && after.rows == o.store.rows[|s.rows| := Revoked(o.store.rows[|s.rows|], now)]
      && after.rows[..|s.rows|] == s.rows
  {
    var o := Login(users, s, identifier, signIn, jwt, issued, settings, now);
    var n := |s.rows|;
    assert o.store.rows[..n] == s.rows;
    assert forall j :: 0 <= j < n ==> o.store.rows[j] == s.rows[j];
    assert LogoutMatch(o.store.rows[n], issued, now);
    assert FirstActive(o.store.rows, issued, now) == Some(n);
    var after := Logout(o.store, issued, now);
    assert after.rows[..n] == s.rows;
  }

  /** A token whose expiry equals the clock can still be rotated, but logout
      no longer recognises it. */
  lemma ExpiryBoundary(users: seq<ApplicationUser>, s: TokenStore, i: nat, jwt: string, issued: string,
                       settings: JwtSettings)
    requires i < |s.rows| && !s.rows[i].isRevoked
    requires FindPresented(s.rows, s.rows[i].userId, s.rows[i].token) == Some(i)
    requires FindById(users, s.rows[i].userId).Some?
    ensures var now := s.rows[i].expiresAt;
      && Logout(s, s.rows[i].token, now).rows[i] == s.rows[i]
      && Refresh(users, s, s.rows[i].userId, s.rows[i].token, Some(jwt), issued, settings, now).result.Ok?
  {
  }

  // ------------------------------------------------------ request histories

  /** One call into the engine, with the clock reading and the oracle values
      it sees. */
  datatype Request =
    | LoginRequest(identifier: string, signIn: SignInResult, jwt: Option<string>, issued: string, now: int)
    | LogoutRequest(token: string, now: int)
    | RefreshRequest(userId: string, token: string, jwt: Option<string>, issued: string, now: int)
    | VerifyRequest(userId: string, codeValid: bool, jwt: Option<string>, issued: string, now: int)
    | RevokeAllRequest(userId: string)

  function Serve(users: seq<ApplicationUser>, s: TokenStore, q: Request, settings: JwtSettings): TokenStore {
    match q
    case LoginRequest(identifier, signIn, jwt, issued, now) =>
      Login(users, s, identifier, signIn, jwt, issued, settings, now).store
    case LogoutRequest(token, now) => Logout(s, token, now)
    case RefreshRequest(userId, token, jwt, issued, now) =>
      Refresh(users, s, userId, token, jwt, issued, settings, now).store
    case VerifyRequest(userId, codeValid, jwt, issued, now) =>
      VerifyTwoFactor(users, s, userId, codeValid, jwt, issued, settings, now).store
    case RevokeAllRequest(userId) => RevokeRefreshTokens(s, userId).store
  }

  /** Serves the requests in order. Each request runs in its own scope, with
      a fresh unit of work whose handle starts idle; a transaction a request
      leaves open is discarded with its scope and holds no saved change, so
      the table carries over and the handle does not. */
  function Run(users: seq<ApplicationUser>, s: TokenStore, qs: seq<Request>, settings: JwtSettings): TokenStore
    decreases |qs|
  {
    if qs == [] then s else Run(users, Serve(users, s.(tx := Idle), qs[0], settings), qs[1..], settings)
  }

  /** The table's identity column only grows, every id is below the next one,
      a revocation time only appears on a revoked row, and the transaction
      handle agrees with its own log. */
  predicate WellFormed(s: TokenStore) {
    RowsWellFormed(s.rows, s.nextId) && Consistent(s.tx)
  }

  predicate RowsWellFormed(rows: seq<RefreshToken>, nextId: int) {
    && (forall j, k :: 0 <= j < k < |rows| ==> rows[j].id < rows[k].id)
    && (forall k :: 0 <= k < |rows| ==> rows[k].id < nextId)
    && (forall k :: 0 <= k < |rows| ==> rows[k].revokedAt.Some? ==> rows[k].isRevoked)
  }

  /** Rows are never deleted; a row keeps its identity, owner, token and
      dates, and a revoked row is never changed again. */
  predicate Evolves(before: seq<RefreshToken>, after: seq<RefreshToken>) {
    && |before| <= |after|
    && forall k :: 0 <= k < |before| ==>
      && after[k].id == before[k].id && after[k].userId == before[k].userId
      && after[k].token == before[k].token && after[k].expiresAt == before[k].expiresAt
      && after[k].createdAt == before[k].createdAt
      && (before[k].isRevoked ==> after[k] == before[k])
  }

  lemma EvolvesTransitive(a: seq<RefreshToken>, b: seq<RefreshToken>, c: seq<RefreshToken>)
    requires Evolves(a, b) && Evolves(b, c)
    ensures Evolves(a, c)
  {
  }

  lemma PersistKeeps(s: TokenStore, userId: string, access: string, issued: string, settings: JwtSettings, now: int)
    requires RowsWellFormed(s.rows, s.nextId)
    ensures var o := Persist(s, userId, access, issued, settings, now);
      RowsWellFormed(o.store.rows, o.store.nextId) && Evolves(s.rows, o.store.rows)
  {
    var o := Persist(s, userId, access, issued, settings, now);
    assert forall k :: 0 <= k < |s.rows| ==> o.store.rows[k] == o.store.rows[..|s.rows|][k];
  }

  lemma LoginKeeps(users: seq<ApplicationUser>, s: TokenStore, identifier: string, signIn: SignInResult,
                   jwt: Option<string>, issued: string, settings: JwtSettings, now: int)
    requires WellFormed(s)
    ensures var o := Login(users, s, identifier, signIn, jwt, issued, settings, now);
      WellFormed(o.store) && Evolves(s.rows, o.store.rows)
  {
    var o := Login(users, s, identifier, signIn, jwt, issued, settings, now);
    OperationsKeepConsistent(s.tx);
    if o.result.Ok? && !o.result.value.requiresTwoFactor {
      LoginIsPersist(users, s, identifier, signIn, jwt, issued, settings, now);
      BeginPersistKeeps(s, o.result.value.userId, jwt.value, issued, settings, now);
    }
  }

  lemma LoginIsPersist(users: seq<ApplicationUser>, s: TokenStore, identifier: string, signIn: SignInResult,
                       jwt: Option<string>, issued: string, settings: JwtSettings, now: int)
    requires var o := Login(users, s, identifier, signIn, jwt, issued, settings, now);
      o.result.Ok? && !o.result.value.requiresTwoFactor
    ensures jwt.Some?
    ensures var o := Login(users, s, identifier, signIn, jwt, issued, settings, now);
      o.store == Persist(s.(tx := Begin(s.tx)), o.result.value.userId, jwt.value, issued, settings, now).store
  {
  }

  lemma LogoutKeeps(s: TokenStore, token: string, now: int)
    requires WellFormed(s)
    ensures WellFormed(Logout(s, token, now)) && Evolves(s.rows, Logout(s, token, now).rows)
  {
  }

  lemma RevokeAllKeeps(s: TokenStore, userId: string)
    requires WellFormed(s)
    ensures var o := RevokeRefreshTokens(s, userId);
      WellFormed(o.store) && Evolves(s.rows, o.store.rows)
  {
    var o := RevokeRefreshTokens(s, userId);
    OperationsKeepConsistent(s.tx);
    OperationsKeepConsistent(Begin(s.tx));
    OperationsKeepConsistent(Save(Begin(s.tx)));
    assert Consistent(o.store.tx);
    assert forall k :: 0 <= k < |s.rows| ==> o.store.rows[k].id == s.rows[k].id;
  }

  /** Revoking one unrevoked row keeps the table well formed. */
  lemma RevokeOneKeeps(s: TokenStore, i: nat, now: int)
    requires WellFormed(s) && i < |s.rows| && !s.rows[i].isRevoked
    ensures var rows := s.rows[i := Revoked(s.rows[i], now)];
      RowsWellFormed(rows, s.nextId) && Evolves(s.rows, rows)
  {
  }

  /** The state a successful rotation persists. */
  lemma RotationKeeps(s: TokenStore, i: nat, userId: string, access: string, issued: string,
                      settings: JwtSettings, now: int)
    requires WellFormed(s) && i < |s.rows| && !s.rows[i].isRevoked
    ensures var mid := TokenStore(s.rows[i := Revoked(s.rows[i], now)], s.nextId, Begin(s.tx));
      var o := Persist(mid, userId, access, issued, settings, now);
      WellFormed(o.store) && Evolves(s.rows, o.store.rows)
  {
    var mid := TokenStore(s.rows[i := Revoked(s.rows[i], now)], s.nextId, Begin(s.tx));
    RevokeOneKeeps(s, i, now);
    OperationsKeepConsistent(s.tx);
    OperationsKeepConsistent(Begin(s.tx));
    OperationsKeepConsistent(Save(Begin(s.tx)));
    PersistKeeps(mid, userId, access, issued, settings, now);
    EvolvesTransitive(s.rows, mid.rows, Persist(mid, userId, access, issued, settings, now).store.rows);
  }

  lemma RefreshKeeps(users: seq<ApplicationUser>, s: TokenStore, userId: string, token: string,
                     jwt: Option<string>, issued: string, settings: JwtSettings, now: int)
    requires WellFormed(s)
    ensures var o := Refresh(users, s, userId, token, jwt, issued, settings, now);
      WellFormed(o.store) && Evolves(s.rows, o.store.rows)
  {
    var o := Refresh(users, s, userId, token, jwt, issued, settings, now);
    if o.result == Fail(ReuseDetected) {
      RevokeAllKeeps(s, userId);
    } else if o.result == Fail(RefreshFailed) {
      OperationsKeepConsistent(s.tx);
      OperationsKeepConsistent(Begin(s.tx));
    } else if o.result.Ok? {
      RefreshRotationKeeps(users, s, userId, token, jwt, issued, settings, now);
    }
  }

  /** A successful refresh is the rotation `RotationKeeps` covers. */
  lemma RefreshRotationKeeps(users: seq<ApplicationUser>, s: TokenStore, userId: string, token: string,
                             jwt: Option<string>, issued: string, settings: JwtSettings, now: int)
    requires WellFormed(s) && Refresh(users, s, userId, token, jwt, issued, settings, now).result.Ok?
    ensures var o := Refresh(users, s, userId, token, jwt, issued, settings, now);
      WellFormed(o.store) && Evolves(s.rows, o.store.rows)
  {
    var i := FindPresented(s.rows, userId, token).value;
    RotationKeeps(s, i, userId, jwt.value, issued, settings, now);
  }

  lemma VerifyKeeps(users: seq<ApplicationUser>, s: TokenStore, userId: string, codeValid: bool,
                    jwt: Option<string>, issued: string, settings: JwtSettings, now: int)
    requires WellFormed(s)
    ensures var o := VerifyTwoFactor(users, s, userId, codeValid, jwt, issued, settings, now);
      WellFormed(o.store) && Evolves(s.rows, o.store.rows)
  {
    var o := VerifyTwoFactor(users, s, userId, codeValid, jwt, issued, settings, now);
    OperationsKeepConsistent(s.tx);
    OperationsKeepConsistent(Begin(s.tx));
    if o.result.Ok? {
      VerifyIsPersist(users, s, userId, codeValid, jwt, issued, settings, now);
      BeginPersistKeeps(s, userId, jwt.value, issued, settings, now);
    }
  }

  /** Beginning a transaction and persisting a session keeps the store well
      formed. */
  lemma BeginPersistKeeps(s: TokenStore, userId: string, access: string, issued: string,
                          settings: JwtSettings, now: int)
    requires WellFormed(s)
    ensures var o := Persist(s.(tx := Begin(s.tx)), userId, access, issued, settings, now);
      WellFormed(o.store) && Evolves(s.rows, o.store.rows)
  {
    OperationsKeepConsistent(s.tx);
    OperationsKeepConsistent(Begin(s.tx));
    OperationsKeepConsistent(Save(Begin(s.tx)));
    PersistKeeps(s.(tx := Begin(s.tx)), userId, access, issued, settings, now);
  }

  lemma VerifyIsPersist(users: seq<ApplicationUser>, s: TokenStore, userId: string, codeValid: bool,
                        jwt: Option<string>, issued: string, settings: JwtSettings, now: int)
    requires VerifyTwoFactor(users, s, userId, codeValid, jwt, issued, settings, now).result.Ok?
    ensures jwt.Some?
    ensures VerifyTwoFactor(users, s, userId, codeValid, jwt, issued, settings, now).store
      == Persist(s.(tx := Begin(s.tx)), userId, jwt.value, issued, settings, now).store
  {
  }

  lemma ServeKeeps(users: seq<ApplicationUser>, s: TokenStore, q: Request, settings: JwtSettings)
    requires WellFormed(s)
    ensures WellFormed(Serve(users, s, q, settings)) && Evolves(s.rows, Serve(users, s, q, settings).rows)
  {
    match q
    case LoginRequest(identifier, signIn, jwt, issued, now) =>
      LoginKeeps(users, s, identifier, signIn, jwt, issued, settings, now);
    case LogoutRequest(token, now) => LogoutKeeps(s, token, now);
    case RefreshRequest(userId, token, jwt, issued, now) =>
      RefreshKeeps(users, s, userId, token, jwt, issued, settings, now);
    case VerifyRequest(userId, codeValid, jwt, issued, now) =>
      VerifyKeeps(users, s, userId, codeValid, jwt, issued, settings, now);
    case RevokeAllRequest(userId) => RevokeAllKeeps(s, userId);
  }

  /** Over any sequence of requests the store stays well formed and every
      earlier row evolves only as `Evolves` allows. */
  lemma {:induction false} RunKeeps(users: seq<ApplicationUser>, s: TokenStore, qs: seq<Request>, settings: JwtSettings)
    requires WellFormed(s)
    ensures WellFormed(Run(users, s, qs, settings)) && Evolves(s.rows, Run(users, s, qs, settings).rows)
    decreases |qs|
  {
    if qs != [] {
      var next := Serve(users, s.(tx := Idle), qs[0], settings);
      assert WellFormed(s.(tx := Idle));
      ServeKeeps(users, s.(tx := Idle), qs[0], settings);
      RunKeeps(users, next, qs[1..], settings);
      EvolvesTransitive(s.rows, next.rows, Run(users, next, qs[1..], settings).rows);
    }
  }

  /** Reuse detection is a kill switch: afterwards no token of that user,
      whatever string is presented, can be rotated. */
  lemma ReuseLeavesNothingUsable(users: seq<ApplicationUser>, s: TokenStore, userId: string, token: string,
                                 jwt: Option<string>, issued: string, settings: JwtSettings, now: int,
                                 token2: string, jwt2: Option<string>, issued2: string, later: int)
    requires Refresh(users, s, userId, token, jwt, issued, settings, now).result == Fail(ReuseDetected)
    ensures var after := Refresh(users, s, userId, token, jwt, issued, settings, now).store;
      Refresh(users, after, userId, token2, jwt2, issued2, settings, later).result.Fail?
  {
  }
}
