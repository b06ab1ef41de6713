# Identity, persistence and country core of the AHIS template, in Dafny

This project models the parts of the AHIS template API that hold its state and its rules:

- **Sign-in and sessions** (`AuthenticationService`). It checks account state and signs users in. It stores refresh tokens and rotates them with reuse detection. It also handles logout, revocation of all of a user's tokens, and two-factor verification.
  - `Sessions` states these as functions from the persisted token table, before and after each call.
  - `SessionProperties` proves what those functions promise across calls.
  - `AuthenticationServices.AuthenticationService` is a class that performs the same steps in place. Each of its methods is proved to leave exactly the state the matching function computes.
- **Accounts** (`AccountService`): registration with a confirmation link, email confirmation, the first password, profile updates, and the authenticator lifecycle (setup, enable, disable).
  - `Accounts` states these as functions over the users table.
  - `AccountServices.AccountService` is a class that updates a shared `Users.UserStore` and is proved equal to those functions.
  - `UriEscaping` models `Uri.EscapeDataString`, which the confirmation link and the `otpauth://` URI rely on.
- **`ApplicationUser`** (`Users`): the record, its derived properties, and the user-store lookups.
- **Units of work and the generic repository.** All three share one transaction-handle concept, `Transactions`:
  - `IdentityKernel.IdentityUnitOfWork`
  - `InfrastructureKernel.UnitOfWork`
  - `Repositories.GenericRepository`, which also models the soft-delete-aware queries, the change tracker, `SaveChanges`, and rollback to the table as it was when the transaction began.
- **Countries:**
  - `AddCountryValidation` models the FluentValidation validator.
  - `AddCountryCommands` models the command and its handler: data-annotation validation, normalisation in place, the uniqueness check with per-field conflict metadata, and the save.
  - `GetAllCountryQueries` models the list query.

Foreign results are parameters of the operations that use them:

- what the sign-in manager reports;
- whether an `IdentityResult` succeeded;
- the minted JWT (`None` when minting throws);
- the fresh refresh-token string;
- the authenticator key;
- whether a TOTP code is valid;
- the recovery codes;
- the encoded email-confirmation token;
- whether an email was delivered;
- whether a save succeeds.

The clock is a parameter `now`, in ticks.

## Model

Paths are relative to the repository root.

| member | source | states |
|---|---|---|
| Transactions.Begin | ahis.template.identity/SharedKernel/IdentityUnitOfWork.cs:22-28 | Begin opens a transaction unless one is open, in which case nothing changes; otherwise it logs one `Began` |
| Transactions.Commit | ahis.template.identity/SharedKernel/IdentityUnitOfWork.cs:30-38 | Commit always leaves no transaction open; with none open it changes nothing, otherwise it logs one `Committed` |
| Transactions.Rollback | ahis.template.identity/SharedKernel/IdentityUnitOfWork.cs:40-48 | Rollback always leaves no transaction open; with none open it changes nothing, otherwise it logs one `RolledBack` |
| Transactions.Save | ahis.template.identity/SharedKernel/IdentityUnitOfWork.cs:17-20 | A save leaves the open flag as it was and logs one `Saved` |
| Transactions.OperationsKeepConsistent | ahis.template.identity/SharedKernel/IdentityUnitOfWork.cs:22-48 | Every handle operation keeps the log well bracketed: transactions never nest, and nothing is committed or rolled back unless begun |
| Transactions.BalancedLog | ahis.template.infrastructure/SharedKernel/UnitOfWork.cs:24-50 | In a consistent log, the begins equal the commits plus the rollbacks plus the one transaction still open |
| Transactions.Idempotence | ahis.template.infrastructure/SharedKernel/UnitOfWork.cs:24-50 | Beginning twice is beginning once; a commit or rollback after a commit or rollback is a no-op |
| IdentityKernel.IdentityUnitOfWork.SaveChanges | ahis.template.identity/SharedKernel/IdentityUnitOfWork.cs:17-20 | The new handle is `Save` of the old |
| IdentityKernel.IdentityUnitOfWork.BeginTransaction | ahis.template.identity/SharedKernel/IdentityUnitOfWork.cs:22-28 | The new handle is `Begin` of the old |
| IdentityKernel.IdentityUnitOfWork.CommitTransaction | ahis.template.identity/SharedKernel/IdentityUnitOfWork.cs:30-38 | The new handle is `Commit` of the old |
| IdentityKernel.IdentityUnitOfWork.RollbackTransaction | ahis.template.identity/SharedKernel/IdentityUnitOfWork.cs:40-48 | The new handle is `Rollback` of the old |
| InfrastructureKernel.UnitOfWork.SaveChanges | ahis.template.infrastructure/SharedKernel/UnitOfWork.cs:19-22 | The new handle is `Save` of the old |
| InfrastructureKernel.UnitOfWork.BeginTransaction | ahis.template.infrastructure/SharedKernel/UnitOfWork.cs:24-30 | The new handle is `Begin` of the old |
| InfrastructureKernel.UnitOfWork.CommitTransaction | ahis.template.infrastructure/SharedKernel/UnitOfWork.cs:32-40 | The new handle is `Commit` of the old |
| InfrastructureKernel.UnitOfWork.RollbackTransaction | ahis.template.infrastructure/SharedKernel/UnitOfWork.cs:42-50 | The new handle is `Rollback` of the old |
| Repositories.GetAll | ahis.template.infrastructure/Repositories/GenericRepository.cs:32-42 | Every result row is a live table row, and every live table row is in the result |
| Repositories.GetAllExactlyLive | ahis.template.infrastructure/Repositories/GenericRepository.cs:32-42 | Each live row appears as often as in the table, and no soft-deleted row appears |
| Repositories.GetAllInTableOrder | ahis.template.infrastructure/Repositories/GenericRepository.cs:32-42 | The live rows of a front part of the table come before those of the rest |
| Repositories.GetById | ahis.template.infrastructure/Repositories/GenericRepository.cs:44-53 | A returned row has that key and is live; with unique keys, the result is empty exactly when every row with that key is soft-deleted |
| Repositories.Get | ahis.template.infrastructure/Repositories/GenericRepository.cs:55-60 | Every result row is a live table row satisfying the predicate, and every such row is in the result |
| Repositories.GetExactlyMatching | ahis.template.infrastructure/Repositories/GenericRepository.cs:55-60 | Each live row satisfying the predicate appears as often as in the table, nothing else appears, and the order is table order |
| Repositories.FirstOrDefault | ahis.template.infrastructure/Repositories/GenericRepository.cs:62-67 | Returns the first live row that satisfies the predicate, and nothing exactly when there is no such row |
| Repositories.Exists | ahis.template.infrastructure/Repositories/GenericRepository.cs:69-72 | True exactly when some row, soft-deleted or not, satisfies the predicate |
| Repositories.Count | ahis.template.infrastructure/Repositories/GenericRepository.cs:74-79 | Equals the number of table positions holding a live row that satisfies the optional predicate, so never more than the live rows |
| Repositories.CountAgreesWithGet | ahis.template.infrastructure/Repositories/GenericRepository.cs:55-79 | Counting with a predicate equals the length of `GetAsync`, although the two apply the predicate and the soft-delete filter in opposite order |
| Repositories.ExistsSeesSoftDeleted | ahis.template.infrastructure/Repositories/GenericRepository.cs:62-72 | A row matched only while soft-deleted answers `ExistsAsync` but not `FirstOrDefaultAsync` |
| Repositories.SoftDeleteRestoreRoundTrip | ahis.template.infrastructure/Repositories/GenericRepository.cs:104-114 | Soft-deleting a live row and restoring it gives back the table; in between, the row is hidden from `GetAllAsync` and `GetByIdAsync`, and fewer rows are live |
| Repositories.ApplyAllAppend | ahis.template.infrastructure/Repositories/GenericRepository.cs:120-121 | Writing tracked changes in two saves gives the same table as one save |
| Repositories.SaveOneAdded | ahis.template.infrastructure/Repositories/GenericRepository.cs:85-89 | Saving one added entity appends it, keyed by the next identity value |
| Repositories.RollbackTx | ahis.template.infrastructure/Repositories/GenericRepository.cs:141-149 | A rollback of an open transaction restores the rows as they were at begin and keeps the identity counter; with none open, it changes nothing |
| Repositories.TransactionOutcome | ahis.template.infrastructure/Repositories/GenericRepository.cs:120-149 | Saves made inside a transaction are undone by a rollback and kept by a commit; either way the transaction is closed afterwards |
| Repositories.GenericRepository.Add | ahis.template.infrastructure/Repositories/GenericRepository.cs:85-89 | Returns the entity and only tracks it as added; the table is not changed until a save |
| Repositories.GenericRepository.AddRange | ahis.template.infrastructure/Repositories/GenericRepository.cs:91-94 | Tracks each entity as added, in order |
| Repositories.GenericRepository.Update | ahis.template.infrastructure/Repositories/GenericRepository.cs:96 | Tracks the entity as updated |
| Repositories.GenericRepository.Remove | ahis.template.infrastructure/Repositories/GenericRepository.cs:100 | Tracks the entity as removed |
| Repositories.GenericRepository.SoftDelete | ahis.template.infrastructure/Repositories/GenericRepository.cs:104-108 | Sets the entity's delete flag and tracks it as updated |
| Repositories.GenericRepository.Restore | ahis.template.infrastructure/Repositories/GenericRepository.cs:110-114 | Clears the entity's delete flag and tracks it as updated |
| Repositories.GenericRepository.SaveChanges | ahis.template.infrastructure/Repositories/GenericRepository.cs:120-121 | Writes the tracked changes in order, clears the tracker, and returns how many changes there were |
| Repositories.GenericRepository.BeginTransaction | ahis.template.infrastructure/Repositories/GenericRepository.cs:123-129 | Opens a transaction unless one is open, remembering the table as it is |
| Repositories.GenericRepository.CommitTransaction | ahis.template.infrastructure/Repositories/GenericRepository.cs:131-139 | Commits and forgets the open transaction; with none open, it does nothing |
| Repositories.GenericRepository.RollbackTransaction | ahis.template.infrastructure/Repositories/GenericRepository.cs:141-149 | Restores the table as it was at begin and forgets the transaction; with none open, it does nothing |
| Users.NewUser | ahis.template.identity/Services/AccountService.cs:51-59 | A new user is active, not deleted, not configured, has an unconfirmed email, no password and no two-factor, and carries the given id, name and email |
| Users.FullName | ahis.template.identity/Models/ApplicationUser.cs:16 | The non-blank names joined by one space: empty when both are blank, the one name when only one is given, "first last" when both are |
| Users.IsAuthenticatorConfigured | ahis.template.identity/Models/ApplicationUser.cs:64 | Configured exactly when two-factor is on and a key is stored that has a character other than white space |
| Users.IsLockedOut | ahis.template.identity/Models/ApplicationUser.cs:96 | Never locked out while lockout is disabled or no end is set; otherwise locked out exactly until the end passes |
| Users.LockoutOnlyExpires | ahis.template.identity/Models/ApplicationUser.cs:96 | A user locked out at a later time was locked out at every earlier time, so a lockout only runs out |
| Users.FindById | ahis.template.identity/Services/AccountService.cs:123 | Returns the first user with that id, and nothing exactly when there is none |
| Users.FindByName | ahis.template.identity/Services/AuthenticationService.cs:49 | Returns the first user whose name matches up to case, and nothing exactly when there is none |
| Users.FindByEmail | ahis.template.identity/Services/AccountService.cs:44 | Returns the first user whose email matches up to case, and nothing exactly when there is none |
| Users.FindByNameOrEmail | ahis.template.identity/Services/AuthenticationService.cs:49 | The name lookup when it finds someone, otherwise the email lookup; nothing exactly when both find no one |
| Users.LookupsReadOnlyKeys | ahis.template.identity/Services/AuthenticationService.cs:49 | Two tables that agree on ids, names and emails answer every lookup alike |
| Sessions.CheckAccountState | ahis.template.identity/Services/AuthenticationService.cs:44-72 | Fails exactly on a blank identifier; an unknown user gets an empty response; a known user gets their id, email confirmation, password and two-factor flags, with no tokens |
| Sessions.Persist | ahis.template.identity/Services/AuthenticationService.cs:107-129 | Appends exactly one active row: it carries the issued token as its token, the next id as its id, the owner, the clock as its creation time and the configured expiry. The answer hands out that same token and expiry with the access token and the configured lifetime; the handle saves and commits |
| Sessions.Login | ahis.template.identity/Services/AuthenticationService.cs:75-138 | Each outcome holds exactly when its condition holds: unknown user or bad password, inactive or deleted user, lockout, minting failure, two-factor challenge, and success (an active user, a succeeded sign-in and a minted token). A challenge changes nothing. A success appends exactly the session it returns, with the minted access token, the issued refresh token and the next id. A minting failure rolls back |
| Sessions.Logout | ahis.template.identity/Services/AuthenticationService.cs:154-169 | Revokes the first unrevoked, unexpired row carrying that token, if there is one; changes no other row |
| Sessions.RevokeFamily | ahis.template.identity/Services/AuthenticationService.cs:304-338 | Marks every row of the user revoked and leaves all other rows as they are |
| Sessions.RevokeRefreshTokens | ahis.template.identity/Services/AuthenticationService.cs:304-338 | Every row of the user ends up revoked and no other row changes. With nothing to revoke, the transaction it began is left open; otherwise it saves and commits |
| Sessions.Refresh | ahis.template.identity/Services/AuthenticationService.cs:171-243 | Each outcome holds exactly when its condition holds: unknown token, reuse of a revoked token, expiry, unknown user, minting failure, and success (an unrevoked, unexpired token of a known user and a minted token). Reuse revokes the whole family. A success revokes the presented row and appends exactly the new session, with the issued token and the next id. The rejections change nothing; a minting failure rolls back |
| Sessions.VerifyTwoFactor | ahis.template.identity/Services/AuthenticationService.cs:246-301 | Each outcome holds exactly when its condition holds, success included (a known user with two-factor on, a valid code and a minted token). The early failures leave the transaction begun and open. A success appends exactly the session it returns, with the issued token and the next id |
| SessionProperties.ReplayAfterRotation | ahis.template.identity/Services/AuthenticationService.cs:171-243 | After a successful rotation, presenting the old token again is reuse: it fails and leaves every token of that user revoked, the new one included |
| SessionProperties.LoginThenLogout | ahis.template.identity/Services/AuthenticationService.cs:75-169 | Logging out with the token a login just issued revokes exactly that row and leaves the earlier rows untouched |
| SessionProperties.ExpiryBoundary | ahis.template.identity/Services/AuthenticationService.cs:154-243 | A token whose expiry equals the clock can still be rotated, but logout no longer finds it |
| SessionProperties.RunKeeps | ahis.template.identity/Services/AuthenticationService.cs:75-395 | Over any sequence of requests, each served with a fresh transaction handle as its request scope provides, ids stay increasing and below the next id, a revocation time only sits on a revoked row, the transaction log stays consistent, and no row is deleted. A row keeps its owner, token and dates, and once revoked never changes |
| SessionProperties.ServeKeeps | ahis.template.identity/Services/AuthenticationService.cs:75-395 | The same invariant, for one request of any kind |
| SessionProperties.ReuseLeavesNothingUsable | ahis.template.identity/Services/AuthenticationService.cs:171-243 | After reuse is detected, no token of that user can be rotated, whatever string is presented |
| AuthenticationServices.AuthenticationService.StoreRefreshToken | ahis.template.identity/Services/AuthenticationService.cs:382-395 | Appends one unrevoked row, keyed by the next id |
| AuthenticationServices.AuthenticationService.Login | ahis.template.identity/Services/AuthenticationService.cs:75-138 | The new table, transaction handle and result are those `Sessions.Login` computes |
| AuthenticationServices.AuthenticationService.Logout | ahis.template.identity/Services/AuthenticationService.cs:154-169 | The new state is the one `Sessions.Logout` computes |
| AuthenticationServices.AuthenticationService.RevokeRefreshTokens | ahis.template.identity/Services/AuthenticationService.cs:304-338 | The loops over the matching rows leave the state that `Sessions.RevokeRefreshTokens` computes |
| AuthenticationServices.AuthenticationService.RefreshToken | ahis.template.identity/Services/AuthenticationService.cs:171-243 | The new state and result are those `Sessions.Refresh` computes |
| AuthenticationServices.AuthenticationService.VerifyTwoFactor | ahis.template.identity/Services/AuthenticationService.cs:246-301 | The new state and result are those `Sessions.VerifyTwoFactor` computes |
| UriEscaping.EscapeDataString | ahis.template.identity/Services/AccountService.cs:402 | The result holds only RFC 3986 unreserved characters and '%', so it never contains `& = ? : /` |
| UriEscaping.EscapeUnreservedIsIdentity | ahis.template.identity/Services/AccountService.cs:402 | A string made only of unreserved characters is unchanged by escaping |
| Accounts.BuildCallbackUrl | ahis.template.identity/Services/AccountService.cs:391-406 | The link is the base without trailing slashes, exactly one '/', the path without its own leading slash, then '?' and the query only when there is a query |
| Accounts.CallbackUrlShape | ahis.template.identity/Services/AccountService.cs:391-406 | Where base, slash, path, '?' and query sit in the link, position by position |
| Accounts.QueryStringParses | ahis.template.identity/Services/AccountService.cs:399-403 | The query string splits on '&' back into its pairs, and each pair splits on '=' into its escaped key and value |
| Accounts.ConfirmationLinkCarriesUserAndToken | ahis.template.identity/Services/AccountService.cs:91-99 | The confirmation link is the base, "/account/confirm-email?", and a query that splits into exactly `userId=` with the escaped id and `token=` with the escaped token |
| Accounts.UnreservedKeyUnescaped | ahis.template.identity/Services/AccountService.cs:399-403 | A parameter name made of unreserved characters appears as it is; only its value is escaped |
| Accounts.ConfirmationKeysUnescaped | ahis.template.identity/Services/AccountService.cs:95-99 | The names `userId` and `token` appear unescaped before their escaped values |
| Accounts.QueryOfTwoParses | ahis.template.identity/Services/AccountService.cs:399-403 | A two-parameter query splits on '&' into exactly its two escaped pairs |
| Accounts.Issuer | ahis.template.identity/Services/AccountService.cs:311 | The issuer is `Identity:Issuer` when configured, else `AppSettings:AppName`, else "AHIS" |
| Accounts.OtpAuthUri | ahis.template.identity/Services/AccountService.cs:312-313 | The provisioning URI starts with "otpauth://totp/" and ends by fixing six digits |
| Accounts.OtpAuthUriParses | ahis.template.identity/Services/AccountService.cs:311-313 | The provisioning URI splits back into the label (escaped issuer and account) and the parameters secret, issuer and digits=6 |
| Accounts.SendEmailConfirmation | ahis.template.identity/Services/AccountService.cs:87-115 | Succeeds exactly when the email is delivered, and then returns the email sent: to the user's address, with the confirmation subject, and a body around the confirmation link for the user's id and the encoded token. Otherwise it fails with the send-failure message |
| Accounts.Register | ahis.template.identity/Services/AccountService.cs:40-84 | A known email or a failed create changes nothing, sends nothing and reports why. A new email with a successful create always adds exactly the new user, even when the email is lost. Success holds exactly when the email is new, create succeeds and the email goes out. An email is sent exactly on success, to the new address, carrying the confirmation link for the new id and the token |
| Accounts.RegisterKeepsEmailsUnique | ahis.template.identity/Services/AccountService.cs:44-49 | Registration keeps emails unique up to case |
| Accounts.RegisteredAccountState | ahis.template.identity/Services/AccountService.cs:40-84 | Checking a freshly registered account by its email reports the new id, an unconfirmed email, no password and no two-factor requirement |
| Accounts.ConfirmEmail | ahis.template.identity/Services/AccountService.cs:118-146 | Fails without change for an unknown user, a token that does not decode, or a rejected token; otherwise it marks that user confirmed at `now` and changes nothing else |
| Accounts.SetPasswordFirstTime | ahis.template.identity/Services/AccountService.cs:149-177 | Fails without change for an unknown user or one who already has a password; otherwise it stores the password for that user only |
| Accounts.ConfirmationReported | ahis.template.identity/Services/AccountService.cs:118-146 | After a confirmation, the account-state check for the same user reports the email confirmed |
| Accounts.PasswordReported | ahis.template.identity/Services/AccountService.cs:149-177 | After a first password, the account-state check for the same user reports a password |
| Accounts.UpdateProfile | ahis.template.identity/Services/AccountService.cs:259-292 | Fails without change for an unknown user or a rejected update. Otherwise it stores trimmed names, the date of birth, phone, configured flag and update time for that user only, and returns the request |
| Accounts.ProfileNamesSettle | ahis.template.identity/Services/AccountService.cs:270-271 | Submitting the stored names again stores the same names |
| Accounts.GenerateAuthenticatorSetup | ahis.template.identity/Services/AccountService.cs:295-327 | Fails without change for an unknown user or one with neither email nor name. Otherwise it stores the key and the URI built from the configured issuer, leaves two-factor as it was, and returns both |
| Accounts.EnableAuthenticator | ahis.template.identity/Services/AccountService.cs:330-362 | Fails without change for an unknown user or an invalid code, and succeeds exactly for a known user with a valid code. Then it enables two-factor at `now` and stores and returns exactly ten recovery codes, the generated ones in order |
| Accounts.DisableAuthenticator | ahis.template.identity/Services/AccountService.cs:364-387 | Fails exactly for an unknown user. Otherwise it turns two-factor off and clears the key, URI, recovery codes and enable time of that user only |
| Accounts.DisableIdempotent | ahis.template.identity/Services/AccountService.cs:364-387 | Disabling twice is disabling once |
| Accounts.AuthenticatorLifecycle | ahis.template.identity/Services/AccountService.cs:295-387 | Setup then enable makes the authenticator configured and two-factor on; disable makes it neither |
| AccountServices.AccountService.Register | ahis.template.identity/Services/AccountService.cs:40-84 | The new table, the result and the email sent are those `Accounts.Register` computes |
| AccountServices.AccountService.ConfirmEmail | ahis.template.identity/Services/AccountService.cs:118-146 | The new table and result are those `Accounts.ConfirmEmail` computes |
| AccountServices.AccountService.SetPasswordFirstTime | ahis.template.identity/Services/AccountService.cs:149-177 | The new table and result are those `Accounts.SetPasswordFirstTime` computes |
| AccountServices.AccountService.UpdateProfile | ahis.template.identity/Services/AccountService.cs:259-292 | The new table and result are those `Accounts.UpdateProfile` computes |
| AccountServices.AccountService.GenerateAuthenticatorSetup | ahis.template.identity/Services/AccountService.cs:295-327 | The new table and result are those `Accounts.GenerateAuthenticatorSetup` computes |
| AccountServices.AccountService.EnableAuthenticator | ahis.template.identity/Services/AccountService.cs:330-362 | The new table and result are those `Accounts.EnableAuthenticator` computes |
| AccountServices.AccountService.DisableAuthenticator | ahis.template.identity/Services/AccountService.cs:364-387 | The new table and result are those `Accounts.DisableAuthenticator` computes |
| AddCountryValidation.NotEmptyRule | ahis.template.application/Features/CountryFeatures/Command/AddCountryCommandValidator.cs:10 | Passes exactly when the value is present and not blank |
| AddCountryValidation.LengthRule | ahis.template.application/Features/CountryFeatures/Command/AddCountryCommandValidator.cs:11 | Passes exactly when the value is missing or its length is within bounds |
| AddCountryValidation.MatchesRule | ahis.template.application/Features/CountryFeatures/Command/AddCountryCommandValidator.cs:20 | Passes exactly when the value is missing or matches, with the .NET end-of-string rule when `asWritten` is set |
| AddCountryValidation.Validate | ahis.template.application/Features/CountryFeatures/Command/AddCountryCommandValidator.cs:9-28 | The validator, with letters-only codes, accepts exactly the well-formed requests |
| AddCountryValidation.ValidateAsWritten | ahis.template.application/Features/CountryFeatures/Command/AddCountryCommandValidator.cs:9-28 | The validator as .NET runs it accepts the well-formed requests and, besides them, exactly those whose three-letter code is two letters and a line feed |
| AddCountryValidation.Code2AsWrittenAgrees | ahis.template.application/Features/CountryFeatures/Command/AddCountryCommandValidator.cs:17-20 | For the two-letter code, the length rule keeps the pattern as written from accepting anything the letters-only check rejects |
| AddCountryValidation.Code3AcceptsLineFeed | ahis.template.application/Features/CountryFeatures/Command/AddCountryCommandValidator.cs:22-25 | As written, the validator accepts the three-letter code "MY\n"; the letters-only check rejects it with exactly the alphabetic message |
| AddCountryValidation.EmptyFullnameFailsBothRules | ahis.template.application/Features/CountryFeatures/Command/AddCountryCommandValidator.cs:9-11 | Every rule of a chain runs: an empty full name fails both the required rule and the length rule, in that order |
| AddCountryValidation.MissingFullnameFailsOnce | ahis.template.application/Features/CountryFeatures/Command/AddCountryCommandValidator.cs:9-11 | A missing full name fails only the required rule |
| AddCountryCommands.PropertyResults | ahis.template.application/Features/CountryFeatures/Command/AddCountryCommand.cs:22-39 | At most one result per property, keyed by that property; none exactly when the required and length attributes hold |
| AddCountryCommands.AnnotationsIff | ahis.template.application/Features/CountryFeatures/Command/AddCountryCommand.cs:22-39 | `TryValidateObject` reports nothing exactly when the annotations hold |
| AddCountryCommands.MetadataOf | ahis.template.application/Features/CountryFeatures/Command/AddCountryCommand.cs:65-72 | One metadata entry per result, in order: the member name, or "Model" when it is blank, with the message or "Invalid value" |
| AddCountryCommands.AnnotationMetadataKeysDistinct | ahis.template.application/Features/CountryFeatures/Command/AddCountryCommand.cs:65-72 | The validation metadata keys are distinct, so `WithMetadata` never meets a repeated key |
| AddCountryCommands.ValidatorImpliesAnnotations | ahis.template.application/Features/CountryFeatures/Command/AddCountryCommandValidator.cs:9-28 | Whatever the FluentValidation validator accepts, the annotations also accept |
| AddCountryCommands.AnnotationsAllowDigits | ahis.template.application/Features/CountryFeatures/Command/AddCountryCommand.cs:33-35 | The annotations accept the two-letter code "M1", which the validator rejects |
| AddCountryCommands.NormalizeIdempotent | ahis.template.application/Features/CountryFeatures/Command/AddCountryCommand.cs:79-82 | Normalising twice is normalising once |
| AddCountryCommands.CodeOfNonBlank | ahis.template.application/Features/CountryFeatures/Command/AddCountryCommand.cs:81-82 | A non-blank code, trimmed and upper-cased, neither starts nor ends with white space |
| AddCountryCommands.LengthCheckedBeforeTrim | ahis.template.application/Features/CountryFeatures/Command/AddCountryCommand.cs:62-79 | Lengths are checked before trimming: the full name " X" passes and is stored one character long |
| AddCountryCommands.ConflictNamesMatchedFields | ahis.template.application/Features/CountryFeatures/Command/AddCountryCommand.cs:85-103 | Every field that matched exactly in the uniqueness query is named in the conflict metadata, so a rejected duplicate never comes back without a reason |
| AddCountryCommands.AddCountry | ahis.template.application/Features/CountryFeatures/Command/AddCountryCommand.cs:55-135 | A failed annotation check returns its metadata and changes nothing. Otherwise the command is normalised. Success holds exactly when the annotations hold, no live row clashes and the save succeeds; it then saves one new entity with the normalised fields. A duplicate changes nothing; a failed save leaves the entity pending and reports the unexpected error |
| AddCountryCommands.AddWritesOneRow | ahis.template.application/Features/CountryFeatures/Command/AddCountryCommand.cs:110-128 | A successful add writes exactly one new live row with the next id and the normalised fields, and no live row clashed with it |
| AddCountryCommands.SecondAddRejected | ahis.template.application/Features/CountryFeatures/Command/AddCountryCommand.cs:85-108 | Repeating a successful add is rejected as a duplicate and changes nothing |
| AddCountryCommands.AddCountryCommand.NormalizeFields | ahis.template.application/Features/CountryFeatures/Command/AddCountryCommand.cs:79-82 | Trims the names, trims and upper-cases the codes in place, and leaves the description |
| AddCountryCommands.AddCountryCommandHandler.CollectMetadata | ahis.template.application/Features/CountryFeatures/Command/AddCountryCommand.cs:64-72 | The loop builds exactly `MetadataOf(results)` |
| AddCountryCommands.AddCountryCommandHandler.Handle | ahis.template.application/Features/CountryFeatures/Command/AddCountryCommand.cs:55-135 | The repository, the command object and the result end as `AddCountry` computes |
| GetAllCountryQueries.GetAllCountries | ahis.template.application/Features/CountryFeatures/Query/GetAllCountryQuery.cs:31-65 | Always succeeds; the list is empty exactly when there is no data, and then carries "No country data found."; otherwise it holds one view per entity, in order |
| GetAllCountryQueries.ViewCopiesFields | ahis.template.application/Features/CountryFeatures/Query/GetAllCountryQuery.cs:49-58 | A view copies every country field unchanged; two views are equal exactly when the countries are |
| GetAllCountryQueries.LiveCountriesShown | ahis.template.application/Features/CountryFeatures/Query/GetAllCountryQuery.cs:37-58 | Every live country in the table is listed |
| GetAllCountryQueries.OnlyLiveCountriesShown | ahis.template.application/Features/CountryFeatures/Query/GetAllCountryQuery.cs:37-58 | Every listed view is that of a live table row; the views of any front part of the table come before those of the rest |
| GetAllCountryQueries.NoLiveCountryExplained | ahis.template.application/Features/CountryFeatures/Query/GetAllCountryQuery.cs:40-45 | The list is empty, with the explanatory message, exactly when no country is live |
| GetAllCountryQueries.SingleCountryListed | ahis.template.test/TestFeatures/CountryFeature/GetAllCountryQueryTest.cs:25-48 | One stored country comes back as one view with its full name |
| GetAllCountryQueries.EmptyStoreExplained | ahis.template.test/TestFeatures/CountryFeature/GetAllCountryQueryTest.cs:58-70 | An empty or missing list succeeds with no views and the message "No country data found." |

## Left out

- Password reset (`GeneratePasswordResetTokenAsync`, `SendEmailForgotPasswordAsync`, `ResetPasswordAsync`): not modelled. They only pass tokens through to the user manager.
- `UpdateRange` and `RemoveRange`: not modelled. They are the one-entity change recorded once per element.
- JWT minting, claim decoding (`DecodeToken`, `GetClaims`), the random refresh-token bytes, TOTP code checking, recovery-code generation, the email sender and the email-token encoding: these are foreign code or randomness. Their results are parameters.
- `int.Parse` of the configuration values: the settings are modelled as integers that are present or absent, so a malformed value (which would throw) is not modelled.
- Case-insensitive matching is ASCII only (`ToUpperInvariant` on other letters is not modelled). String lengths count characters, not UTF-16 code units.
- The database collation: every string equality the database evaluates is compared ordinally. This covers the uniqueness query (`Clashes`) and the token and user-id filters of logout, refresh and revocation (ahis.template.identity/Services/AuthenticationService.cs:157-160, 176-179, 310-311). A case-insensitive collation would match more rows.
- Row order: the queries have no ORDER BY, so the database may return rows in any order. The model takes table order, so "the first match" is the first in insertion order (ahis.template.infrastructure/Repositories/GenericRepository.cs:39-41, 64-66; ahis.template.identity/Services/AuthenticationService.cs:156, 176).
- `FindByEmailAsync` uses a single-result query, which throws when two users share an email; the model returns the first match. With `RequireUniqueEmail` configured (ahis.template.api/Program.cs:179) the user manager refuses duplicates, so the case does not arise; without it, the exception would reach the catch block of the caller.
- Entity Framework details of the repository: `FindAsync` also sees entities tracked but not yet saved; `Update` or `Remove` of a row that is not in the table throws at `SaveChanges`, and `Update` of an entity with key 0 inserts it. The model looks up saved rows only, and `ApplyChange` ignores a change whose key is not in the table.
- The add-country handler saves through `IUnitOfWork`. It is modelled as the repository's `SaveChanges`, because both share one database context.
- The data-annotation results are assumed to come in property declaration order.
- Failures that are modelled: a failed JWT mint (`jwt` is `None`), a failed email send (`delivered`), a confirmation token that does not decode (`decodes`), and a failed save in the add-country handler.
- Failed saves in `AuthenticationService` are not modelled: every save there is assumed to succeed. In the source a failed save in `LoginAsync`, `RefreshTokenAsync` or `VerifyTwoFactorAsync` is caught, rolled back and reported with the same message as a failed mint. A failed save in `RevokeRefreshTokensAsync` is rolled back and reported as "Failed to revoke refresh tokens." (ahis.template.identity/Services/AuthenticationService.cs:332-337), a result the model never produces. A failed save in `LogoutAsync` is not caught and reaches the caller (:168).
- `VerifyTwoFactorAsync` with `rememberMachine` calls `SetTwoFactorEnabledAsync(user, true)` (ahis.template.identity/Services/AuthenticationService.cs:270-273). Two-factor is already on at that point, so the flag does not change; the parameter and that user-manager call are not modelled.
- The catch blocks of `RegisterAsync`, `SetPasswordFirstTimeAsync`, `UpdateProfileAsync`, `EnableAuthenticatorAsync` and `DisableAuthenticatorAsync` are not modelled. They are reached only through exceptions from the user manager.
- The `IdentityResult` of several user-manager writes is ignored by the source: `UpdateAsync` (ahis.template.identity/Services/AccountService.cs:137, 318, 353, 378), `ResetAuthenticatorKeyAsync` (:307) and `SetTwoFactorEnabledAsync` (:344, :372). The model assumes each of these succeeds, so `ConfirmEmail`, `GenerateAuthenticatorSetup`, `EnableAuthenticator` and `DisableAuthenticator` always store every column they set. In the source a refused write (a concurrency-stamp or validation failure) still returns Ok, with those columns unwritten or only partly written.
- `ResetAuthenticatorKeyAsync` writes the new key to the user manager's own token store. That write is not modelled, because that store is not part of this model. Only the `AuthenticatorKey` and `AuthenticatorUri` columns the service sets are modelled.
- Concurrency, async scheduling, logging and cancellation tokens: not modelled.
- Mediator dispatch and `ValidationBehavior`: not modelled. The FluentValidation validator is modelled on its own and related to the annotations by lemmas. Whether it runs before the handler depends on the pipeline registration.
- `AddCountryCommands.AddCountryCommand.NormalizeFields`: it states the new fields one by one, rather than through `Normalize`. `Handle` then asserts that the two agree.

## Findings

| source | as written | input that shows it | evidently intended | confidence | as-written member | corrected member |
|---|---|---|---|---|---|---|
| ahis.template.application/Features/CountryFeatures/Command/AddCountryCommandValidator.cs:22-25 | `Length(2, 3)` with `Matches("^[A-Za-z]{2,3}$")`: in .NET, `$` also matches before a final line feed, so a two-letter code followed by '\n' is three characters long and matches | CountryCode3 = "MY\n" (with CountryFullname "Malaysia", CountryShortname "MAS", CountryCode2 "MY") passes every rule | the three-letter code holds only letters (the rule's own message is "must be alphabetic"); anchor with `\z` | not executed | AddCountryValidation.Code3AcceptsLineFeed | AddCountryValidation.Validate |
