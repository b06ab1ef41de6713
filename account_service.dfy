/** `AccountService` as a class over the shared users table. Each method
    assigns the fields of one user in place and is proved to leave exactly
    the table the matching function of `Accounts` computes, so the
    properties proved there hold of it. */
module AccountServices {
  import opened Wrappers
  import opened Users
  import opened Accounts

  class AccountService {
    const userStore: UserStore
    /** `IdentityOptions.Lockout.AllowedForNewUsers`. */
    const lockoutForNewUsers: bool

    constructor (userStore: UserStore, lockoutForNewUsers: bool)
      ensures this.userStore == userStore && this.lockoutForNewUsers == lockoutForNewUsers
    {
      this.userStore := userStore;
      this.lockoutForNewUsers := lockoutForNewUsers;
    }

    /** `RegisterAsync`. */
    method Register(email: string, userName: string, callbackBaseUrl: string, newId: string, create: IdentityResult,
                    encodedToken: string, delivered: bool, now: int)
      returns (r: Result<string>, sent: Option<Email>)
      modifies userStore
      ensures RegisterOutcome(userStore.users, r, sent)
        == Accounts.Register(old(userStore.users), email, userName, callbackBaseUrl, newId, create, encodedToken,
                             delivered, lockoutForNewUsers, now)
    {
      if FindByEmail(userStore.users, email).Some? {
        return Fail(EmailAlreadyRegistered), None;
      }
      if create.Failed? {
        return Fail(ErrorText(create.errors)), None;
      }
      var user := NewUser(newId, userName, email, lockoutForNewUsers, now);
      userStore.users := userStore.users + [user];
      var mail := SendEmailConfirmation(user, callbackBaseUrl, encodedToken, delivered);
      if mail.Fail? {
        return Fail(ConfirmationNotSent), None;
      }
      r, sent := Ok(newId), Some(mail.value);
    }

    /** `ConfirmEmailAsync`. */
    method ConfirmEmail(userId: string, decodes: bool, confirm: IdentityResult, now: int) returns (r: Result<()>)
      modifies userStore
      ensures AccountOutcome(userStore.users, r) == Accounts.ConfirmEmail(old(userStore.users), userId, decodes, confirm, now)
    {
      var found := FindById(userStore.users, userId);
      if found.None? {
        return Fail(UserNotFound);
      }
      if !decodes {
        return Fail(ConfirmEmailUnexpected);
      }
      if confirm.Failed? {
        return Fail(ErrorText(confirm.errors));
      }
      var i := found.value;
      userStore.users := userStore.users[i := userStore.users[i].(emailConfirmed := true)];
      userStore.users := userStore.users[i := userStore.users[i].(emailVerifiedAt := Some(now))];
      r := Ok(());
    }

    /** `SetPasswordFirstTimeAsync`. */
    method SetPasswordFirstTime(userId: string, add: IdentityResult, hash: string) returns (r: Result<()>)
      modifies userStore
      ensures AccountOutcome(userStore.users, r) == Accounts.SetPasswordFirstTime(old(userStore.users), userId, add, hash)
    {
      var found := FindById(userStore.users, userId);
      if found.None? {
        return Fail(UserNotFound);
      }
      var i := found.value;
      if userStore.users[i].passwordHash.Some? {
        return Fail(PasswordAlreadySet);
      }
      if add.Failed? {
        return Fail(ErrorText(add.errors));
      }
      userStore.users := userStore.users[i := userStore.users[i].(passwordHash := Some(hash))];
      r := Ok(());
    }

    /** `UpdateProfileAsync`: the fields are assigned on the tracked user and
        reach the table with `UpdateAsync`. */
    method UpdateProfile(userId: string, dto: ProfileUpdate, update: IdentityResult, now: int) returns (r: Result<ProfileUpdate>)
      modifies userStore
      ensures AccountOutcome(userStore.users, r) == Accounts.UpdateProfile(old(userStore.users), userId, dto, update, now)
    {
      var found := FindById(userStore.users, userId);
      if found.None? {
        return Fail(UserNotFound);
      }
      var i := found.value;
      var user := userStore.users[i];
      user := user.(firstName := TrimOption(dto.firstName));
      user := user.(lastName := TrimOption(dto.lastName));
      user := user.(dateOfBirth := dto.dateOfBirth);
      user := user.(phoneNumber := dto.phoneNumber);
      user := user.(isAccountConfigured := dto.markAccountConfigured);
      user := user.(updatedAt := Some(now));
      if update.Failed? {
        return Fail(ErrorText(update.errors));
      }
      userStore.users := userStore.users[i := user];
      r := Ok(dto);
    }

    /** `GenerateAuthenticatorSetupAsync`. */
    method GenerateAuthenticatorSetup(userId: string, key: string, identityIssuer: Option<string>, appName: Option<string>)
      returns (r: Result<AuthenticatorSetup>)
      modifies userStore
      ensures AccountOutcome(userStore.users, r)
        == Accounts.GenerateAuthenticatorSetup(old(userStore.users), userId, key, identityIssuer, appName)
    {
      var found := FindById(userStore.users, userId);
      if found.None? {
        return Fail(UserNotFound);
      }
      var i := found.value;
      var issuer := Issuer(identityIssuer, appName);
      var account := SetupAccount(userStore.users[i]);
      if account.None? {
        return Fail(SetupFailed);
      }
      var uri := OtpAuthUri(issuer, account.value, key);
      userStore.users := userStore.users[i := userStore.users[i].(authenticatorKey := Some(key))];
      userStore.users := userStore.users[i := userStore.users[i].(authenticatorUri := Some(uri))];
      r := Ok(AuthenticatorSetup(key, uri));
    }

    /** `EnableAuthenticatorAsync`. */
    method EnableAuthenticator(userId: string, codeValid: bool, recovery: nat -> string, now: int)
      returns (r: Result<seq<string>>)
      modifies userStore
      ensures AccountOutcome(userStore.users, r)
        == Accounts.EnableAuthenticator(old(userStore.users), userId, codeValid, recovery, now)
    {
      var found := FindById(userStore.users, userId);
      if found.None? {
        return Fail(UserNotFound);
      }
      if !codeValid {
        return Fail(InvalidVerificationCode);
      }
      var i := found.value;
      var codes := seq(RecoveryCodeCount, k requires 0 <= k < RecoveryCodeCount => recovery(k));
      userStore.users := userStore.users[i := userStore.users[i].(twoFactorEnabled := true)];
      userStore.users := userStore.users[i := userStore.users[i].(twoFactorEnabledAt := Some(now))];
      userStore.users := userStore.users[i := userStore.users[i].(recoveryCodes := Some(codes))];
      r := Ok(codes);
    }

    /** `DisableAuthenticatorAsync`. */
    method DisableAuthenticator(userId: string) returns (r: Result<()>)
      modifies userStore
      ensures AccountOutcome(userStore.users, r) == Accounts.DisableAuthenticator(old(userStore.users), userId)
    {
      var found := FindById(userStore.users, userId);
      if found.None? {
        return Fail(UserNotFound);
      }
      var i := found.value;
      var user := userStore.users[i];
      user := user.(twoFactorEnabled := false);
      user := user.(authenticatorKey := None);
      user := user.(authenticatorUri := None);
      user := user.(recoveryCodes := None);
      user := user.(twoFactorEnabledAt := None);
      userStore.users := userStore.users[i := user];
      r := Ok(());
    }
  }
}
