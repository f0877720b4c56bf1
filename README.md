# mentalk identity and credentials, in Dafny

This project models the identity and credential subsystem of the mentalk Spring
backend: the canonical packages `org.mentalk.auth`, `org.mentalk.member`,
`org.mentalk.session` and `org.mentalk.common`, plus the `ROLE_` authority
naming of `org.mentalk.security.PrincipalDetails`.

- **Store.** `IdentityStore` holds the three tables the JPA repositories work
  on, as the class `Store`: members (name, phone number, role), local accounts
  (member, email, hashed password) and sessions (mentor, type, title, content).
  Each table is keyed by a generated identity. Its `Valid()` invariant is the
  schema's:
  - unique phone numbers;
  - one account per member;
  - unique emails;
  - foreign keys from accounts and sessions to members;
  - identities below the next one issued.

  `save` is specified as `persist` or `merge`, as JPA runs it. The NOT NULL,
  UNIQUE and foreign-key checks raise `DataIntegrityViolationException` and
  write nothing.
- **Entities.** `Domain` holds `Member` and `LocalAccount`, mutable classes with
  `PrePersist`, `ChangeRole` and `ChangePassword`.
- **Services.** `LocalAccounts`, `Auth`, `Members` and `Sessions` hold the
  service classes. Each one shares one `Store`. A throwing call returns a
  `Result` whose failure is the exception.
  - Every state-changing method is proved equal to a specification function
    over the store's value. That means the result and the new store are exactly
    `Spec(old store, …)`.
  - The properties of the services are proved as lemmas about those functions.
  - `@Transactional` calls roll back by restoring the snapshot taken at entry.
- **Pure pieces.**
  - `Jwt`: the token claims codec.
  - `Decimal`: the `String.valueOf` / `Long.valueOf` text of ids.
  - `SecurityConfig`: the route authorization table and its 401 and 403 handlers.
  - `Principal`: the `ROLE_` naming.
  - `ErrorCodes`: the error-code table.
  - `ExceptionHandling`: the exception to error-code mapping.
  - `Responses`: the response envelope.
  - `RequestValidation`: the `@NotBlank` and phone-pattern validation of the
    signup and email-recovery requests.

The password encoder (`PasswordEncoder`) is a pair of functions `encode` and
`matches` given as a parameter. `Sound(encoder)` states BCrypt's promise that a
password matches its own encoding. The token signature is abstracted to the key
a token was signed with. The clock is a parameter `now`, in seconds.

Where the code, its tests and its declarations disagree, the model follows the
code where the code is complete, and otherwise the declarations or the tests, as
each item says:
- `LocalAccountService` throws `ErrorCode.ALREADY_REGISTERED`, which the enum
  does not declare. The model uses the declared `ALREADY_ACCOUNT_REGISTERED`
  (C002, 409).
- `SessionService` throws `MEMBER_NOT_FOUND`, while its test expects
  `MENTOR_NOT_FOUND`, which the enum does not declare. The model uses
  `MEMBER_NOT_FOUND`.
- The tests call a throwing `AuthService.checkEmailInUse`, which the code does
  not have. It is modelled beside `isEmailExists` as `CheckEmailInUse`: it
  fails with ALREADY_EMAIL_IN_USE exactly when the email exists.
- `AuthService.findEmail` calls `LocalAccountRepository.findByMemberId`, which
  the interface does not declare. It is modelled as the store query
  `FindByMemberId`.
- `GlobalExceptionHandler` imports `org.mentalk.common.dto.ApiResponse` and
  `PrincipalDetails` imports the older `org.mentalk.enums.Role`. The model uses
  the `ApiResponse` of `org.mentalk.common.response` and the one `Role`
  (USER, MENTOR) throughout.

## Model

| member | source | states |
|---|---|---|
| Enums.RoleValueOf | src/main/java/org/mentalk/common/security/JwtUtil.java:66-68 | `Role.valueOf` accepts only the exact name of a role |
| Enums.ValueOfName | src/main/java/org/mentalk/common/security/JwtUtil.java:66-68 | `Role.valueOf(role.name())` gives back every role |
| ErrorCodes.FromCode | src/main/java/org/mentalk/common/enums/ErrorCode.java:12-35 | looking up a code string finds only a constant carrying that code |
| ErrorCodes.FromCodeOfCode | src/main/java/org/mentalk/common/enums/ErrorCode.java:12-35 | every constant is found again from its own code |
| ErrorCodes.CodesDistinct | src/main/java/org/mentalk/common/enums/ErrorCode.java:12-35 | two constants have the same code string if and only if they are the same constant |
| ErrorCodes.StatusClasses | src/main/java/org/mentalk/common/enums/ErrorCode.java:12-35 | for each HTTP status, exactly which constants map to it: 400 for the four request errors and DATA_INTEGRITY_VIOLATION; 401 for UNAUTHORIZED and INVALID_PASSWORD; 403 for FORBIDDEN; 404 for the three NOT_FOUND; 409 for the two conflicts; 500 for UNEXPECTED_ERROR and JWT_CREATION_ERROR |
| Responses.Success | src/main/java/org/mentalk/common/response/ApiResponse.java:11-13 | `success(message, data)` is a well-formed envelope with success = true carrying exactly that message and data |
| Responses.SuccessOf | src/main/java/org/mentalk/common/response/ApiResponse.java:15-17 | a well-formed success envelope carrying `data` with the default message "success" |
| Responses.Failure | src/main/java/org/mentalk/common/response/ApiResponse.java:19-21 | `failure(code, message)` is a well-formed envelope with success = false and payload {code, message} |
| Responses.SuccessAndFailureDiffer | src/main/java/org/mentalk/common/response/ApiResponse.java:3-21 | no success envelope equals a failure envelope |
| ExceptionHandling.Handle | src/main/java/org/mentalk/common/exception/GlobalExceptionHandler.java:14-40 | every handled exception gives a failure envelope whose status, code and message are those of the exception's error code |
| ExceptionHandling.SwitchAgrees | src/main/java/org/mentalk/common/exception/GlobalExceptionHandler.java:27-33 | the switch on the simple class name picks the error code the exception maps to |
| ExceptionHandling.ApiExceptionKeepsItsCode | src/main/java/org/mentalk/common/exception/GlobalExceptionHandler.java:14-23 | an ApiException yields its own code's status, code and message |
| ExceptionHandling.FrameworkExceptions | src/main/java/org/mentalk/common/exception/GlobalExceptionHandler.java:27-33 | the four framework exceptions map to G002 to G005; any other name maps to UNEXPECTED_ERROR with status 500 |
| Decimal.NatToDigits | src/main/java/org/mentalk/common/security/JwtUtil.java:29 | the decimal text of a number is non-empty, all digits, without a leading zero |
| Decimal.ParseLong | src/main/java/org/mentalk/common/security/JwtUtil.java:62-64 | `Long.valueOf` accepts only non-empty text, and a negative result comes from a leading '-' |
| Decimal.DigitsRoundTrip | src/main/java/org/mentalk/common/security/JwtUtil.java:62-64 | reading the digits of a natural number gives it back (by induction) |
| Decimal.LongRoundTrip | src/main/java/org/mentalk/common/security/JwtUtil.java:62-64 | `Long.valueOf(String.valueOf(n)) == n` for every n |
| Decimal.LongToStringInjective | src/main/java/org/mentalk/common/security/JwtUtil.java:29 | distinct ids have distinct subject texts |
| Jwt.NewJwtUtil | src/main/java/org/mentalk/common/security/JwtUtil.java:23-25 | the constructor succeeds if and only if the key has at least 256 bits, and then keeps that key |
| Jwt.CreateToken | src/main/java/org/mentalk/common/security/JwtUtil.java:27-43 | signing fails with JWT_CREATION_ERROR exactly for a weak key; otherwise the token is signed with the key, issued at `now` and expires 1440 minutes later |
| Jwt.GetClaims | src/main/java/org/mentalk/common/security/JwtUtil.java:54-60 | every parse failure is a JwtException |
| Jwt.ValidateToken | src/main/java/org/mentalk/common/security/JwtUtil.java:45-52 | a token validates if and only if it was signed with this key and has not expired |
| Jwt.GetId | src/main/java/org/mentalk/common/security/JwtUtil.java:62-64 | a parse failure of the token propagates unchanged; an id is returned only for a valid token and is the subject read as a decimal; a subject that is not a number gives NumberFormatException |
| Jwt.GetRole | src/main/java/org/mentalk/common/security/JwtUtil.java:66-68 | a parse failure of the token propagates unchanged; a role is returned only for a valid token and is the role claim read by `Role.valueOf`; an unknown name gives IllegalArgumentException |
| Jwt.ConstructedUtilSigns | src/main/java/org/mentalk/common/security/JwtUtil.java:23-43 | a component the constructor accepted never fails to sign |
| Jwt.GetIdRoundTrip | src/main/java/org/mentalk/common/security/JwtUtil.java:62-64 | `getId(createToken(id, role)) == id` throughout the token's lifetime |
| Jwt.GetRoleRoundTrip | src/main/java/org/mentalk/common/security/JwtUtil.java:66-68 | `getRole(createToken(id, role)) == role` throughout the token's lifetime |
| Jwt.ValidUntilExpiry | src/main/java/org/mentalk/common/security/JwtUtil.java:32-39 | a fresh token validates exactly at the times before issue time + 1440 minutes |
| Jwt.ForeignTokenRejected | src/main/java/org/mentalk/common/security/JwtUtil.java:54-60 | a token signed with another key never validates and yields no id |
| Principal.Authorities | src/main/java/org/mentalk/security/PrincipalDetails.java:13-16 | the authorities are exactly one string, starting with "ROLE_" |
| Principal.Password | src/main/java/org/mentalk/security/PrincipalDetails.java:18-21 | the password is always null |
| Principal.Username | src/main/java/org/mentalk/security/PrincipalDetails.java:23-26 | the username reads back as the id |
| Principal.RoleOfAuthority | src/main/java/org/mentalk/security/PrincipalDetails.java:15 | an authority names a role only when it is "ROLE_" followed by that role's name |
| Principal.HasRoleIffOwnRole | src/main/java/org/mentalk/security/PrincipalDetails.java:13-16 | `hasRole(r)` holds if and only if the principal's role is r, and the one authority reads back as that role |
| SecurityConfig.FirstMatch | src/main/java/org/mentalk/common/config/SecurityConfig.java:55-63 | the rule applied is the first matching one: it matches, and no earlier rule does |
| SecurityConfig.Authorize | src/main/java/org/mentalk/common/config/SecurityConfig.java:55-83 | a request passes exactly when the first matching rule grants the identity; a refusal is 401 only without an identity and 403 only with one |
| SecurityConfig.DenialResponse | src/main/java/org/mentalk/common/config/SecurityConfig.java:65-83 | only a refusal produces a response; it is a failure, 401 with UNAUTHORIZED when unauthenticated and 403 with FORBIDDEN when denied |
| SecurityConfig.DenialResponsesDistinct | src/main/java/org/mentalk/common/config/SecurityConfig.java:65-83 | the 401 and 403 handlers use the statuses of UNAUTHORIZED and FORBIDDEN and carry different codes |
| SecurityConfig.AuthRoutesPublic | src/main/java/org/mentalk/common/config/SecurityConfig.java:56-57 | /api/auth itself and every request under /api/auth/ are permitted, with or without an identity |
| SecurityConfig.SignupRoutePublic | src/main/java/org/mentalk/common/config/SecurityConfig.java:58-59 | POST /api/members is permitted anonymously |
| SecurityConfig.SessionCreationNeedsMentor | src/main/java/org/mentalk/common/config/SecurityConfig.java:60-61 | POST /api/sessions: 401 without an identity, 403 for a non-MENTOR, allowed for a MENTOR |
| SecurityConfig.DefaultRuleNeedsIdentity | src/main/java/org/mentalk/common/config/SecurityConfig.java:62-63 | any other route is permitted exactly when some identity is present, whatever its role |
| SecurityConfig.RoleChangeNeedsIdentity | src/main/java/org/mentalk/common/config/SecurityConfig.java:55-63 | PUT /api/members/role/mentor needs authentication although POST /api/members does not |
| SecurityConfig.ForbiddenOnlyForSessionCreation | src/main/java/org/mentalk/common/config/SecurityConfig.java:55-63 | a 403 happens only for POST /api/sessions by an authenticated non-MENTOR |
| RequestValidation.TrimEmptyIffNoVisible | src/main/java/org/mentalk/member/dto/request/SignupRequest.java:7-10 | `@NotBlank` refuses exactly the strings made only of characters up to ' ' (by induction) |
| RequestValidation.PhonePatternIsRegexLanguage | src/main/java/org/mentalk/member/dto/request/SignupRequest.java:10 | the phone check accepts exactly the language of `^\+?[0-9]{10,15}$`: an optional '+' and 10 to 15 ASCII digits |
| RequestValidation.ValidateSignup | src/main/java/org/mentalk/member/dto/request/SignupRequest.java:7-10 | a signup request passes exactly when all four fields are non-blank and the phone matches the pattern; otherwise MethodArgumentNotValidException, mapped to METHOD_ARG_NOT_VALID |
| RequestValidation.ValidateEmailFind | src/main/java/org/mentalk/auth/dto/request/EmailFindRequest.java:6-7 | an email-recovery request passes exactly when the phone is non-blank and matches; otherwise METHOD_ARG_NOT_VALID |
| RequestValidation.PhonePatternNotBlank | src/main/java/org/mentalk/member/dto/request/SignupRequest.java:10 | a phone matching the pattern is never blank |
| RequestValidation.EmailFindPhoneRule | src/main/java/org/mentalk/auth/dto/request/EmailFindRequest.java:7 | email recovery accepts a phone exactly when it is in the pattern's language |
| RequestValidation.SignupPhoneAcceptedForEmailFind | src/main/java/org/mentalk/auth/dto/request/EmailFindRequest.java:7 | every phone accepted at signup is accepted for email recovery |
| RequestValidation.DigitStringLength | src/main/java/org/mentalk/member/dto/request/SignupRequest.java:10 | a string of digits passes exactly when its length is 10 to 15 |
| RequestValidation.ScenarioPhones | src/test/java/org/mentalk/member/MemberControllerTest.java:134-154 | "01012345678" is accepted by both requests; "010-1234-5678" is refused and fails signup validation |
| Domain.PrePersistRole | src/main/java/org/mentalk/member/domain/Member.java:40-43 | the persisted role is never null: null becomes USER, a set role is kept |
| Domain.PrePersistIdempotent | src/main/java/org/mentalk/member/domain/Member.java:40-43 | running `prePersist` twice leaves the role of running it once |
| Domain.Member.PrePersist | src/main/java/org/mentalk/member/domain/Member.java:40-43 | the entity's role becomes the pre-persist role and no other field changes |
| Domain.Member.ChangeRole | src/main/java/org/mentalk/member/domain/Member.java:45-47 | the role becomes the argument and no other field changes |
| Domain.LocalAccount.ChangePassword | src/main/java/org/mentalk/auth/domain/LocalAccount.java:39-41 | the hash becomes the argument, so the last call wins, and no other field changes |
| IdentityStore.MemberWithPhone | src/main/java/org/mentalk/member/MemberRepository.java:11 | `findByPhoneNumber` finds a member holding the phone, and finds none exactly when no member has it |
| IdentityStore.AccountWithEmail | src/main/java/org/mentalk/auth/LocalAccountRepository.java:15 | `findByEmail` finds an account holding the email, and is empty exactly when `existsByEmail` is false |
| IdentityStore.AccountOfMember | src/main/java/org/mentalk/auth/AuthService.java:53-55 | `findByMemberId` finds the member's account, and is empty exactly when `existsByMemberId` is false |
| IdentityStore.LookupsAreUnique | src/main/java/org/mentalk/auth/domain/LocalAccount.java:29-34 | under the unique keys each lookup names the one row holding the value |
| IdentityStore.SaveMemberPreservesValid | src/main/java/org/mentalk/member/domain/Member.java:30-38 | saving a member keeps the store valid (phone numbers stay unique), and a refused save writes nothing |
| IdentityStore.SaveAccountPreservesValid | src/main/java/org/mentalk/auth/domain/LocalAccount.java:29-37 | saving an account keeps one account per member, unique emails and the member foreign key; a refused save writes nothing |
| IdentityStore.PersistSessionPreservesValid | src/main/java/org/mentalk/session/domain/Session.java:32-34 | saving a session keeps the store valid; one without a stored mentor writes nothing |
| IdentityStore.DuplicatePhoneRejected | src/test/java/org/mentalk/member/MemberRepositoryTest.java:33-47 | a second member with a stored phone is refused with DataIntegrityViolationException and the store is unchanged |
| IdentityStore.NullRoleStoredAsUser | src/test/java/org/mentalk/member/MemberRepositoryTest.java:49-60 | a member saved with a null role is stored as USER under the next identity |
| IdentityStore.NullMemberFieldsRejected | src/test/java/org/mentalk/member/MemberRepositoryTest.java:22-31 | a member with a null name or phone is refused and nothing is written |
| IdentityStore.AccountCollisionRejected | src/test/java/org/mentalk/auth/LocalAccountRepositoryTest.java:37-81 | a new account with a null field, a member that has an account, or an email in use is refused and nothing is written |
| IdentityStore.Store.FindMemberById | src/main/java/org/mentalk/member/MemberService.java:41-42 | `findById` is empty exactly for an unknown id, and otherwise gives a fresh entity holding the stored row |
| IdentityStore.Store.FindByPhoneNumber | src/main/java/org/mentalk/member/MemberRepository.java:11 | gives a fresh entity holding the member with the phone, or nothing when no member has it; reads only |
| IdentityStore.Store.SaveMember | src/main/java/org/mentalk/member/domain/Member.java:30-43 | the new store and result are those of `save` (merge a stored entity, else persist); the store stays valid, and a persisted entity gets its id and its pre-persist role |
| IdentityStore.Store.MergeMemberRow | src/main/java/org/mentalk/member/domain/Member.java:30-38 | rewriting a stored member checks NOT NULL and the unique phone |
| IdentityStore.Store.PersistMemberRow | src/main/java/org/mentalk/member/domain/Member.java:30-43 | inserting a member runs `prePersist`, then the NOT NULL and unique-phone checks, then takes the next identity |
| IdentityStore.Store.ExistsByMemberId | src/main/java/org/mentalk/auth/LocalAccountRepository.java:11 | true exactly when some account refers to the member; reads only |
| IdentityStore.Store.ExistsByEmail | src/main/java/org/mentalk/auth/LocalAccountRepository.java:13 | true exactly when some account has the email; reads only |
| IdentityStore.Store.FindByEmail | src/main/java/org/mentalk/auth/LocalAccountRepository.java:15 | gives a fresh entity holding the account with the email, or nothing; reads only |
| IdentityStore.Store.FindByMemberId | src/main/java/org/mentalk/auth/AuthService.java:53-55 | gives a fresh entity holding the member's account, or nothing; reads only |
| IdentityStore.Store.SaveAccount | src/main/java/org/mentalk/auth/domain/LocalAccount.java:29-37 | the new store and result are those of `save`; the store stays valid and a persisted entity gets its id |
| IdentityStore.Store.MergeAccountRow | src/main/java/org/mentalk/auth/domain/LocalAccount.java:29-37 | rewriting a stored account checks NOT NULL, the member foreign key and both unique keys |
| IdentityStore.Store.PersistAccountRow | src/main/java/org/mentalk/auth/domain/LocalAccount.java:29-37 | inserting an account checks NOT NULL, the member foreign key and both unique keys, then takes the next identity |
| IdentityStore.Store.SaveSession | src/main/java/org/mentalk/session/SessionService.java:26 | saving a session checks its mentor and inserts it under the next identity; the store stays valid |
| IdentityStore.Store.Restore | src/main/java/org/mentalk/member/MemberService.java:25-37 | a rollback leaves exactly the store the transaction started from |
| LocalAccounts.AlreadyRegisteredWins | src/main/java/org/mentalk/auth/LocalAccountService.java:20-22 | a member that already has an account is refused with ALREADY_ACCOUNT_REGISTERED before the email is looked at; nothing is written |
| LocalAccounts.EmailInUseRejected | src/main/java/org/mentalk/auth/LocalAccountService.java:24-26 | otherwise an email in use is refused with ALREADY_EMAIL_IN_USE; nothing is written |
| LocalAccounts.CreateLocalAccountOutcome | src/main/java/org/mentalk/auth/LocalAccountService.java:18-31 | the call succeeds exactly for a stored member without an account and an unused email; it then adds exactly one account (member, email, `encode(password)`) and changes nothing else; the store stays valid |
| LocalAccounts.LocalAccountService.CreateLocalAccount | src/main/java/org/mentalk/auth/LocalAccountService.java:18-31 | the result and the new store are those of `createLocalAccount` on the old store, and the store stays valid |
| Auth.CheckEmailInUseSpec | src/test/java/org/mentalk/auth/AuthServiceTest.java:47-72 | the test-specified check fails with ALREADY_EMAIL_IN_USE exactly when the email is taken |
| Auth.LoginUnknownEmail | src/main/java/org/mentalk/auth/AuthService.java:33-35 | an unknown email fails with EMAIL_NOT_FOUND, whatever the password |
| Auth.LoginWrongPassword | src/main/java/org/mentalk/auth/AuthService.java:37-39 | a password that does not match the stored hash fails with INVALID_PASSWORD and issues no token |
| Auth.LoginSuccess | src/main/java/org/mentalk/auth/AuthService.java:41-44 | with a key strong enough to sign, login succeeds exactly when the password matches; the token reads back as the account's member id and that member's role, validates for its lifetime, and the response carries the same role |
| Auth.LoginWithStoredPassword | src/main/java/org/mentalk/auth/AuthService.java:31-45 | with a sound encoder, an account stored with `encode(p)` logs in with p, and the token names its member |
| Auth.FindEmailOutcome | src/main/java/org/mentalk/auth/AuthService.java:47-58 | MEMBER_NOT_FOUND exactly when no member has the phone; ACCOUNT_NOT_FOUND exactly when that member has no account; otherwise the email of that member's account |
| Auth.ResetPasswordOutcome | src/main/java/org/mentalk/auth/AuthService.java:60-69 | an unknown email fails with ACCOUNT_NOT_FOUND and changes nothing; otherwise only that account's hash changes, to `encode(password)`; the store stays valid |
| Auth.LoginAfterReset | src/main/java/org/mentalk/auth/AuthService.java:60-69 | with a sound encoder, login with the new password succeeds after a reset |
| Auth.OtherPasswordFailsAfterReset | src/main/java/org/mentalk/auth/AuthService.java:60-69 | with an encoder whose encodings match only their own password, every other password, the replaced one included, fails with INVALID_PASSWORD after a reset |
| Auth.AuthService.IsEmailExists | src/main/java/org/mentalk/auth/AuthService.java:26-29 | true exactly when some account has the email; reads only |
| Auth.AuthService.CheckEmailInUse | src/test/java/org/mentalk/auth/AuthServiceTest.java:47-72 | throws ALREADY_EMAIL_IN_USE exactly when the email is taken; reads only |
| Auth.AuthService.LocalLogin | src/main/java/org/mentalk/auth/AuthService.java:31-45 | the result is that of `localLogin` on the current store; reads only |
| Auth.AuthService.FindEmail | src/main/java/org/mentalk/auth/AuthService.java:47-58 | the result is that of `findEmail` on the current store; reads only |
| Auth.AuthService.ResetPassword | src/main/java/org/mentalk/auth/AuthService.java:60-69 | the result and the new store are those of `resetPassword` on the old store, and the store stays valid |
| Members.SignupOutcome | src/main/java/org/mentalk/member/MemberService.java:25-37 | a failed signup leaves the store as it was. It succeeds exactly when the member it attaches to has no account and the email is unused. It creates a USER member only when no member had the phone, adds exactly one account for that member, and keeps the store valid (no duplicate phone). ALREADY_ACCOUNT_REGISTERED comes before ALREADY_EMAIL_IN_USE |
| Members.SignupAccount | src/main/java/org/mentalk/member/MemberService.java:34-36 | after a signup, the new account holds the email and `encode(password)` and belongs to the member with the given phone |
| Members.SignupThenFindEmail | src/main/java/org/mentalk/member/MemberService.java:25-37 | after a signup, email recovery by the same phone returns the new email |
| Members.SignupThenLogin | src/main/java/org/mentalk/member/MemberService.java:25-37 | after a signup, with a sound encoder, the same email and password log in and the token names the member holding the phone |
| Members.SecondSignupRefused | src/test/java/org/mentalk/member/MemberServiceTest.java:81-102 | a second signup with the same phone is refused as already registered and writes nothing |
| Members.ChangeRoleOutcome | src/main/java/org/mentalk/member/MemberService.java:39-49 | an unknown id gives MEMBER_NOT_FOUND and a weak key gives JWT_CREATION_ERROR, both with the store unchanged; otherwise only that member's role becomes MENTOR and the response says MENTOR; the store stays valid |
| Members.ChangeRoleTokenCarriesMentor | src/main/java/org/mentalk/member/MemberService.java:46-48 | the issued token reads back as (member id, MENTOR) |
| Members.ChangeRoleIdempotent | src/main/java/org/mentalk/member/MemberService.java:43-44 | a second role change leaves the store the first one left |
| Members.MemberService.Signup | src/main/java/org/mentalk/member/MemberService.java:25-37 | the result and the new store are those of `signup` on the old store, with rollback on failure; the store stays valid |
| Members.MemberService.ChangeRoleToMentor | src/main/java/org/mentalk/member/MemberService.java:39-49 | the result and the new store are those of `changeRoleToMentor` on the old store, with rollback when signing fails; the store stays valid |
| Sessions.CreateSessionOutcome | src/main/java/org/mentalk/session/SessionService.java:21-29 | an unknown mentor gives MEMBER_NOT_FOUND and saves nothing. Otherwise exactly one session (the mentor, type, title and content) is added under the returned id, and members, accounts and other sessions are unchanged |
| Sessions.RoleNotChecked | src/main/java/org/mentalk/session/SessionService.java:23-26 | the outcome does not depend on the mentor's role |
| Sessions.SessionService.CreateSession | src/main/java/org/mentalk/session/SessionService.java:21-29 | the result and the new store are those of `createSession` on the old store, and the store stays valid |

## Left out

- The JWT filter and Spring's SecurityContextHolder are not part of this model: the identity is a parameter of `SecurityConfig.Authorize`.
- BCrypt and HMAC-SHA256 are foreign cryptography: the encoder is a pair of functions, and a token records the key that signed it instead of a signature.
- The compact token text is not modelled. A token is its claims and key, so a malformed token string cannot arise.
- Clock skew between the two `ZonedDateTime.now()` calls in `createToken` is not modelled: both read the one `now`.
- Times are whole seconds; `Date`'s millisecond resolution is dropped.
- `@Email` is not modelled: the library's email grammar is not visible. The email field only needs to be non-blank.
- BCrypt's random salt is not modelled: `encode` is a deterministic function, so the same password always gets the same hash.
- Decimal.ParseLong: accepts ASCII digits only, whereas `Long.valueOf` also accepts other Unicode decimal digits through `Character.digit`. The model cannot show this, because subjects come only from `LongToString`.
- The `createdAt` and `updatedAt` columns that `Member`, `LocalAccount` and `Session` inherit from `BaseTimeEntity` are not modelled: nothing in the core reads them.
- Decimal.ParseLong: ids are unbounded naturals, so the 64-bit range of `Long` and its overflow error are not modelled.
- IdentityStore.Store.Restore: a rollback restores the identity counters too, whereas a database sequence leaves a gap. Only the identity values of later rows differ.
- Concurrency is not modelled: each service call is one atomic method on the store, and the check-then-insert race between transactions is out of scope.
- Lazy loading, flush order and the persistence context are not modelled. An entity returned by a query is a fresh copy of the row.
- `SessionType` is modelled as an opaque name with the one value MENTORING, because its enum file is not part of this model.
- The legacy `provider` field of `PrincipalDetails` belongs to the superseded design and is dropped.
- The controllers are left out: HTTP routing, cookies, the JSON writer and the `content-type` header are transport details.
- CORS configuration and logging are left out.
- The older, superseded packages (`org.mentalk.service`, `controller`, `repository`, `config`, `enums`, `exception`, `dto`) are not modelled.
