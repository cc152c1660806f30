# StudyLink account e-mail verification, in Dafny

This project models the e-mail verification workflow of StudyLink, a study-group web
application. It covers two pieces:

- the `Account` entity's verification state and its four operations: issuing a token,
  marking the account verified (`configurate`), checking a token, and the one-hour
  resend cooldown;
- the `AccountController` handlers: the sign-up form and its submission, verification
  through the e-mailed link, the "verify your e-mail" prompt, and resending the
  confirmation mail.

Files:

- `wrappers.dfy`: `Option`, which stands for the source's nullable references.
- `domain.dfy`, module `Domain`: the entity. `Account` is a class whose methods update
  its fields in place. `AccountData` is the value of the fields the workflow reads or
  writes. The pure functions `WithNewToken` and `Configured` specify the entity's two
  updates, and the class's methods are proved against them. The predicates `IsValidToken`
  and `CanSendConfirmEmail` are defined through `TokenMatches` and `ResendAllowed` on the
  same value, and each states its own verdict on the entity's fields. The methods'
  `modifies` clauses name single fields, so every other field of the entity is unchanged
  by construction.
- `accounts.dfy`, module `Accounts`: the controller. `AccountController` holds the
  repository as a `map` from e-mail address to `Account` object, with a ghost value
  copy `repository` and a ghost log of calls into the account service (`Event`:
  created, logged in, confirmation mail sent). Each handler returns a `View`, which is a
  view name plus the attributes the handler added to the model. The sign-up submission
  and the link verification are proved against an `...Outcome` function of the old
  repository. The resend handler is proved against `ResendConfirmEmailOutcome` of the
  current account's data. The two form views state their result directly. The handlers'
  properties are stated on those functions.
- `workflow.dfy`, module `Workflow`: runs of any sequence of sign-ups, link clicks and
  token issuances. It proves, for every run:
  - accounts are never removed, renamed or un-verified;
  - if every sign-up in the run stores an account that is not yet verified, an account
    becomes verified only through a click that presents exactly the token it held at that
    moment;
  - if every sign-up in the run stores an account that is not yet verified and every
    verified account of the starting repository has a join time, every verified account
    at the end has one too.

The clock is an integer number of seconds passed to each operation. The fresh token,
which the source draws from `UUID.randomUUID()`, is an argument.

Behaviour as the code has it:

- The resend cooldown is strict (`isBefore(now.minusHours(1))`). A resend exactly one
  hour after issuance is still refused. It is allowed only strictly after that
  (`ResendCooldownBoundary`).
- `configurate` stamps `joinedAt` again on every successful verification. Clicking the
  link again on a verified account succeeds and moves the join time
  (`ConfiguredRestampsJoinedAt`). So the join time is not set only once.

## Model

| member | source | states |
|---|---|---|
| `Domain.WithNewToken` | src/main/java/com/studylink/domain/Account.java:58-61 | issuing stores the new token and the current time, leaves `emailVerified`, `joinedAt`, username and e-mail alone, makes the new token the only one accepted, and starts the cooldown: a resend at the same instant is refused |
| `Domain.Account.GenerateEmailVerificationToken` | src/main/java/com/studylink/domain/Account.java:58-61 | the entity's new state is `WithNewToken` of its old state; only the token and its timestamp may change; afterwards the token is valid and `CanSendConfirmEmail(now)` is false |
| `Domain.Configured` | src/main/java/com/studylink/domain/Account.java:63-66 | marking verified sets `emailVerified` and `joinedAt = now`, keeps the token, its timestamp, username and e-mail, and accepts exactly the tokens accepted before |
| `Domain.Account.Configurate` | src/main/java/com/studylink/domain/Account.java:63-66 | the entity's new state is `Configured` of its old state; only `emailVerified` and `joinedAt` may change |
| `Domain.ConfiguredIdempotent` | src/main/java/com/studylink/domain/Account.java:63-66 | marking verified twice at the same instant equals marking it once |
| `Domain.ConfiguredRestampsJoinedAt` | src/main/java/com/studylink/domain/Account.java:63-66 | on an already verified account, marking verified keeps it verified but replaces a different earlier join time |
| `Domain.TokenMatches` | src/main/java/com/studylink/domain/Account.java:68-70 | a token is accepted iff the account stores a token equal to it; an account without a token accepts none |
| `Domain.Account.IsValidToken` | src/main/java/com/studylink/domain/Account.java:68-70 | on the entity: true iff its stored token is exactly `token`, false when it has none; reads the entity and changes nothing |
| `Domain.ResendAllowed` | src/main/java/com/studylink/domain/Account.java:72-74 | a resend is allowed iff `now` is strictly later than issuance plus 3600 seconds |
| `Domain.Account.CanSendConfirmEmail` | src/main/java/com/studylink/domain/Account.java:72-74 | on the entity: true iff `now` is strictly later than its token issuance time plus 3600 seconds; reads the entity and changes nothing |
| `Domain.TokenMatchesExactly` | src/main/java/com/studylink/domain/Account.java:68-70 | the token check is exact equality: at most one token, the stored one, is accepted, and none is accepted when no token was issued |
| `Domain.ResendCooldownBoundary` | src/main/java/com/studylink/domain/Account.java:72-74 | resending is allowed iff more than 3600 seconds have passed since issuance: refused at exactly one hour, allowed one second later |
| `Accounts.VerifyEmailTokenOutcome` | src/main/java/com/studylink/account/AccountController.java:51-73 | every path renders `account/verified-email`; "wrong.email" iff the e-mail is unknown; "wrong.token" iff it is known and the token does not match, so an unknown e-mail never gives "wrong.token"; on either error nothing changes, nobody is logged in and the error is the view's only attribute; otherwise only that account becomes verified with `joinedAt = now`, that account alone is logged in, and the view carries the repository size and the username with no error |
| `Accounts.AccountController.VerifyEmailToken` | src/main/java/com/studylink/account/AccountController.java:51-73 | the view, the new repository and the service calls are those of `VerifyEmailTokenOutcome` on the old repository; only the looked-up account object may change; only that object's `emailVerified` and `joinedAt` may change; the repository stays keyed by e-mail |
| `Accounts.VerificationExample` | src/main/java/com/studylink/account/AccountController.java:51-73 | for an account "a@x.com" holding "abc": token "abc" verifies it, "zzz" gives "wrong.token", "missing@x.com" gives "wrong.email" |
| `Accounts.SignUpSubmitOutcome` | src/main/java/com/studylink/account/AccountController.java:38-47 | with validation errors: `account/signUp`, no account created, nobody logged in; without: `redirect:/`, the account the service created (an argument, stored as `processNewAccount` stores it) is added under its e-mail, every other account is unchanged, and it is created and then logged in |
| `Accounts.AccountController.SignUpSubmit` | src/main/java/com/studylink/account/AccountController.java:38-47 | the view, the new repository and the service calls are those of `SignUpSubmitOutcome` on the old repository; every stored account keeps its object, and a successful sign-up adds one fresh object under the new e-mail |
| `Accounts.SignUpAddsOneAccount` | src/main/java/com/studylink/account/AccountController.java:42-46 | a successful sign-up grows the repository by exactly one account |
| `Accounts.ResendConfirmEmailOutcome` | src/main/java/com/studylink/account/AccountController.java:83-92 | a mail is sent iff the cooldown has passed; then exactly one mail goes to the account's address and the view is `redirect:/`; otherwise `account/verify-email` with the cooldown error and the account's e-mail, and no mail |
| `Accounts.AccountController.ResendConfirmEmail` | src/main/java/com/studylink/account/AccountController.java:83-92 | the view and the service calls are those of `ResendConfirmEmailOutcome` for the current user; the repository is unchanged and stays keyed by e-mail |
| `Accounts.AccountController.SignUpForm` | src/main/java/com/studylink/account/AccountController.java:31-34 | renders `account/signUp` with a blank sign-up form as its only attribute |
| `Accounts.AccountController.VerifyEmail` | src/main/java/com/studylink/account/AccountController.java:76-79 | renders `account/verify-email` with the current user's e-mail as its only attribute |
| `Workflow.ApplyKeepsAccount` | src/main/java/com/studylink/account/AccountController.java:38-73 | no single sign-up, link click or token issuance removes an account, changes its username or e-mail, or un-verifies it |
| `Workflow.RunKeepsAccounts` | src/main/java/com/studylink/account/AccountController.java:38-73 | the same holds over any sequence of those requests |
| `Workflow.ApplyVerifiesOnlyByToken` | src/main/java/com/studylink/account/AccountController.java:56-69 | if one request turns an account from unverified (or absent) into verified, that request is a link click for that e-mail with the token the account stored |
| `Workflow.VerifiedOnlyThroughMatchingToken` | src/main/java/com/studylink/account/AccountController.java:56-69 | over any run whose sign-ups store unverified accounts, an account that ends verified and did not start so was verified by a click in the run presenting exactly the token it held at that moment |
| `Workflow.ApplyKeepsJoinedWhenVerified` | src/main/java/com/studylink/domain/Account.java:63-66 | one request keeps "every verified account has a join time" |
| `Workflow.RunKeepsJoinedWhenVerified` | src/main/java/com/studylink/domain/Account.java:63-66 | any run whose sign-ups store unverified accounts keeps "every verified account has a join time" |

## Left out

- Randomness: `UUID.randomUUID()` is not modelled. The fresh token is a method argument, so nothing about its unpredictability is stated.
- Time: `LocalDateTime.now()` becomes an integer clock argument in seconds. Sub-second precision, calendars and time zones are not modelled.
- Framework wiring has no logic of its own and is not modelled: `initBinder` (validator attachment), `@Valid`, the `@CurrentUser` resolution and Spring's `Model` object. The current user is a method argument. The model is the `View` value.
- `AccountService` and `SignUpFormValidator` are not part of this model. The validator's verdict is a boolean. The account that `processNewAccount` creates is an argument.
- `processNewAccount` is modelled as a `Created` event plus storing the given account under its e-mail. Its other effects (building the account from the form, encoding the password, issuing the first token, sending the mail) are not modelled. `login` and `sendSignUpConfirmEmail` appear only as entries in the ghost event log. In particular, the model does not assume that sending the confirmation mail issues a new token.
- `AccountRepository` is the controller's map from e-mail to account. `findByEmail` is a lookup in it, and `count` is its size.
- Persistence: JPA ids, transactions and the database's uniqueness constraints on username and e-mail are not modelled. In `Workflow.Apply`, a sign-up with a taken e-mail leaves the repository unchanged, standing for the store refusing it.
- `Accounts.AccountController.SignUpSubmit`: requires that a sign-up without validation errors uses an e-mail not yet stored. The source relies on the validator and the unique constraint for this, and a duplicate would end in a persistence exception.
- `Accounts.SignUpSubmitOutcome`: requires that an outcome without validation errors is asked for an e-mail not yet stored. The source's path for a duplicate (the store's unique constraint throws a persistence exception and nothing is saved) is not modelled.
- `Accounts.AccountController.ResendConfirmEmail`: requires that the current user has a token issuance time. The source dereferences it and would throw on null.
- `Accounts.ResendConfirmEmailOutcome`: requires a token issuance time, for the same reason.
- `Domain.ResendAllowed`: requires a token issuance time. The source compares it unconditionally and would throw a NullPointerException on null.
- `Domain.Account.CanSendConfirmEmail`: requires that the entity has a token issuance time, for the same reason.
- `Domain.TokenMatches`: an account without a token matches nothing, so such a click renders "wrong.token". The source dereferences the null token at `isValidToken` and throws a NullPointerException instead. Both leave the account unverified and log nobody in.
- `Domain.Account.IsValidToken`: the same deviation on the entity; with no stored token it returns false where the source throws.
- Profile fields (password, image, bio, url, occupation, location) and the six notification flags are fields of the `Account` class only. No operation here reads or writes them.
- The workflow runs contain only the requests that change the repository: sign-up, link click and token issuance. Resend and the two form views leave the repository unchanged.
- Concurrency between requests is not modelled. Each handler runs to completion on its own.
