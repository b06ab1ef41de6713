/** `AuthenticationService` as a class over the refresh-token table and the
    identity unit of work. Every method is proved to leave exactly the state
    the matching function of `Sessions` computes, so the properties proved
    there hold of it. */
module AuthenticationServices {
  import opened Wrappers
  import opened Transactions
  import opened Users
  import opened Sessions
  import opened IdentityKernel

  class AuthenticationService {
    const userStore: UserStore
    const unitOfWork: IdentityUnitOfWork
    const settings: JwtSettings
    /** The `RefreshTokens` table, in insertion order. */
    var refreshTokens: seq<RefreshToken>
    /** The value the table's identity column hands out next. */
    var nextId: int

    function Store(): TokenStore
      reads this, unitOfWork
    {
      TokenStore(refreshTokens, nextId, unitOfWork.Handle())
    }

    constructor (userStore: UserStore, unitOfWork: IdentityUnitOfWork, settings: JwtSettings,
                 refreshTokens: seq<RefreshToken>, nextId: int)
      ensures this.userStore == userStore && this.unitOfWork == unitOfWork && this.settings == settings
      ensures this.refreshTokens == refreshTokens && this.nextId == nextId
    {
      this.userStore := userStore;
      this.unitOfWork := unitOfWork;
      this.settings := settings;
      this.refreshTokens := refreshTokens;
      this.nextId := nextId;
    }

    /** `StoreRefreshTokenAsync`: adds one row; it is saved by the caller. */
    method StoreRefreshToken(userId: string, token: string, expiresAt: int, now: int)
      modifies this
      ensures refreshTokens == old(refreshTokens) + [Sessions.RefreshToken.RefreshToken(old(nextId), userId, token, expiresAt, now, false, None)]
      ensures nextId == old(nextId) + 1
    {
      refreshTokens := refreshTokens + [Sessions.RefreshToken.RefreshToken(nextId, userId, token, expiresAt, now, false, None)];
      nextId := nextId + 1;
    }

    /** `LoginAsync`. `jwt` is `None` when minting the access token throws. */
    method Login(identifier: string, signIn: SignInResult, jwt: Option<string>, issued: string, now: int)
      returns (r: Result<AuthResponse>)
      modifies this, unitOfWork
      ensures Outcome(Store(), r) == Sessions.Login(userStore.users, old(Store()), identifier, signIn, jwt, issued, settings, now)
    {
      var found := FindByNameOrEmail(userStore.users, identifier);
      if found.None? {
        return Fail(InvalidCredentials);
      }
      var user := userStore.users[found.value];
      if !user.isActive || user.isDeleted {
        return Fail(UserNotActive);
      }
      if signIn == LockedOut {
        return Fail(UserLockedOut);
      }
      if signIn == TwoFactorRequired {
        return Ok(EmptyResponse.(requiresTwoFactor := true, userId := user.id));
      }
      if signIn != Succeeded {
        return Fail(InvalidCredentials);
      }
      if jwt.None? {
        unitOfWork.RollbackTransaction();
        return Fail(LoginFailed);
      }
      var expiresAt := RefreshExpiry(settings, now);
      unitOfWork.BeginTransaction();
      StoreRefreshToken(user.id, issued, expiresAt, now);
      unitOfWork.SaveChanges();
      unitOfWork.CommitTransaction();
      r := Ok(AuthResponse(jwt.value, ExpirySeconds(settings), issued, expiresAt, user.id, false, false, false));
    }

    /** `LogoutAsync`. */
    method Logout(token: string, now: int)
      modifies this
      ensures Store() == Sessions.Logout(old(Store()), token, now)
    {
      var found := FirstActive(refreshTokens, token, now);
      if found.None? {
        return;
      }
      var i := found.value;
      refreshTokens := refreshTokens[i := refreshTokens[i].(isRevoked := true, revokedAt := Some(now))];
    }

    /** `RevokeRefreshTokensAsync`: loads the user's unrevoked rows, then marks
        each of them revoked. */
    method RevokeRefreshTokens(userId: string) returns (r: Result<()>)
      modifies this, unitOfWork
      ensures Outcome(Store(), r) == Sessions.RevokeRefreshTokens(old(Store()), userId)
    {
      unitOfWork.BeginTransaction();
      var tokens: seq<nat> := [];
      var i := 0;
      while i < |refreshTokens|
        invariant 0 <= i <= |refreshTokens|
        invariant forall k :: 0 <= k < |tokens| ==> tokens[k] < i && Unrevoked(refreshTokens[tokens[k]], userId)
        invariant forall k :: 0 <= k < i && Unrevoked(refreshTokens[k], userId) ==> k in tokens
      {
        if Unrevoked(refreshTokens[i], userId) {
          tokens := tokens + [i];
        }
        i := i + 1;
      }
      if |tokens| == 0 {
        assert !HasUnrevoked(refreshTokens, userId);
        return Ok(());
      }
      assert Unrevoked(refreshTokens[tokens[0]], userId);
      ghost var before := refreshTokens;
      var j := 0;
      while j < |tokens|
        invariant 0 <= j <= |tokens|
        invariant |refreshTokens| == |before| && nextId == old(nextId)
        modifies this
        invariant forall k :: 0 <= k < |before| ==>
          refreshTokens[k] == if k in tokens[..j] then before[k].(isRevoked := true) else before[k]
      {
        var t := tokens[j];
        refreshTokens := refreshTokens[t := refreshTokens[t].(isRevoked := true)];
        assert tokens[..j + 1] == tokens[..j] + [t];
        j := j + 1;
      }
      assert tokens[..j] == tokens;
      assert refreshTokens == RevokeFamily(before, userId);
      unitOfWork.SaveChanges();
      unitOfWork.CommitTransaction();
      r := Ok(());
    }

    /** `RefreshTokenAsync`. The source marks the presented row revoked before
        minting the access token; that change is only tracked in memory and is
        lost when minting throws, so the table is written after the check. */
    method RefreshToken(userId: string, token: string, jwt: Option<string>, issued: string, now: int)
      returns (r: Result<AuthResponse>)
      modifies this, unitOfWork
      ensures Outcome(Store(), r) == Sessions.Refresh(userStore.users, old(Store()), userId, token, jwt, issued, settings, now)
    {
      var found := FindPresented(refreshTokens, userId, token);
      if found.None? {
        return Fail(InvalidRefreshToken);
      }
      var i := found.value;
      if refreshTokens[i].isRevoked {
        var _ := RevokeRefreshTokens(userId);
        return Fail(ReuseDetected);
      }
      if refreshTokens[i].expiresAt < now {
        return Fail(ExpiredRefreshToken);
      }
      if FindById(userStore.users, userId).None? {
        return Fail(UserNotFound);
      }
      unitOfWork.BeginTransaction();
      if jwt.None? {
        unitOfWork.RollbackTransaction();
        return Fail(RefreshFailed);
      }
      refreshTokens := refreshTokens[i := refreshTokens[i].(isRevoked := true, revokedAt := Some(now))];
      var expiresAt := RefreshExpiry(settings, now);
      StoreRefreshToken(userId, issued, expiresAt, now);
      unitOfWork.SaveChanges();
      unitOfWork.CommitTransaction();
      r := Ok(AuthResponse(jwt.value, ExpirySeconds(settings), issued, expiresAt, userId, false, false, false));
    }

    /** `VerifyTwoFactorAsync`. `codeValid` is the authenticator provider's
        verdict on the submitted code. */
    method VerifyTwoFactor(userId: string, codeValid: bool, jwt: Option<string>, issued: string, now: int)
      returns (r: Result<AuthResponse>)
      modifies this, unitOfWork
      ensures Outcome(Store(), r) == Sessions.VerifyTwoFactor(userStore.users, old(Store()), userId, codeValid, jwt, issued, settings, now)
    {
      unitOfWork.BeginTransaction();
      var found := FindById(userStore.users, userId);
      if found.None? {
        return Fail(UserNotFound);
      }
      var user := userStore.users[found.value];
      if !user.twoFactorEnabled {
        return Fail(TwoFactorNotEnabled);
      }
      if !codeValid {
        return Fail(InvalidTwoFactorCode);
      }
      if jwt.None? {
        unitOfWork.RollbackTransaction();
        return Fail(VerifyFailed);
      }
      var expiresAt := RefreshExpiry(settings, now);
      StoreRefreshToken(user.id, issued, expiresAt, now);
      unitOfWork.SaveChanges();
      unitOfWork.CommitTransaction();
      r := Ok(AuthResponse(jwt.value, ExpirySeconds(settings), issued, expiresAt, user.id, false, false, false));
    }
  }
}
