/**
 * The account request handlers (`com.studylink.account.AccountController`).
 *
 * The repository is a map from e-mail address to account object; the view a
 * handler renders is a `View` value; the calls into the account service
 * (create, log in, send the confirmation mail) are recorded in a ghost log of
 * `Event`s. The sign-up submission and the link verification are methods
 * proved against a function of the old repository (`...Outcome`); the resend
 * handler is proved against a function of the current account's data; the
 * properties of the handlers are stated on those functions.
 */
module Accounts {
  import opened Wrappers
  import opened Domain

  const SignUpView := "account/signUp"
  const VerifiedEmailView := "account/verified-email"
  const VerifyEmailView := "account/verify-email"
  const RedirectHome := "redirect:/"
  const CooldownMessage := "We already sent verification 1 hour ago."

  /** A value placed in the view model. */
  datatype Attribute = Text(text: string) | Number(number: int) | BlankSignUpForm

  /** A rendered result: the view name and the attributes the handler added. */
  datatype View = View(name: string, attributes: map<string, Attribute>)

  /** A call into the account service. */
  datatype Event = Created(email: string) | LoggedIn(email: string) | ConfirmEmailSent(email: string)

  /** What a handler renders, the repository it leaves and the service calls it makes. */
  datatype Outcome = Outcome(view: View, repository: map<string, AccountData>, effects: seq<Event>)

  /** What the resend handler renders and the service calls it makes. */
  datatype Reply = Reply(view: View, effects: seq<Event>)

  /** The `error` attribute of a view, if it has a textual one. */
  function ErrorOf(v: View): (e: Option<string>)
  {
    if "error" in v.attributes && v.attributes["error"].Text? then Some(v.attributes["error"].text) else None
  }

  /**
   * Verification by the e-mailed link: the e-mail is looked up first, then the
   * token is compared; only a matching token verifies the account and logs it in.
   */
  function VerifyEmailTokenOutcome(repository: map<string, AccountData>, token: string, email: string, now: int): (o: Outcome)
    // every path renders the same view
    ensures o.view.name == VerifiedEmailView
    // the e-mail check comes first: an unknown e-mail is always "wrong.email"
    ensures ErrorOf(o.view) == Some("wrong.email") <==> email !in repository
    ensures ErrorOf(o.view) == Some("wrong.token") <==> email in repository && !TokenMatches(repository[email], token)
    // a failed attempt changes nothing and logs nobody in
    ensures ErrorOf(o.view).Some? ==> o.repository == repository && o.effects == []
    ensures ErrorOf(o.view).Some? ==> o.view.attributes == map["error" := Text(ErrorOf(o.view).value)]
    // success: that account, and only it, is verified at `now` and logged in
    ensures ErrorOf(o.view).None? <==> email in repository && TokenMatches(repository[email], token)
    ensures ErrorOf(o.view).None? ==>
      && o.repository == repository[email := Configured(repository[email], now)]
      && o.effects == [LoggedIn(email)]
      && o.view.attributes == map["numberOfUser" := Number(|repository|), "username" := Text(repository[email].username)]
    ensures o.repository.Keys == repository.Keys
  {
    if email !in repository then
      Outcome(View(VerifiedEmailView, map["error" := Text("wrong.email")]), repository, [])
    else if !TokenMatches(repository[email], token) then
      Outcome(View(VerifiedEmailView, map["error" := Text("wrong.token")]), repository, [])
    else
      var account := Configured(repository[email], now);
      Outcome(View(VerifiedEmailView, map["numberOfUser" := Number(|repository|), "username" := Text(account.username)]),
              repository[email := account], [LoggedIn(email)])
  }

  /**
   * Sign-up submission: with validation errors the form is shown again and
   * nothing happens; otherwise `created` (the account the service made from the
   * form) is stored and logged in.
   */
  function SignUpSubmitOutcome(repository: map<string, AccountData>, hasErrors: bool, created: AccountData): (o: Outcome)
    requires !hasErrors ==> created.email !in repository
    ensures hasErrors ==> o.view == View(SignUpView, map[]) && o.repository == repository && o.effects == []
    ensures !hasErrors ==>
      && o.view == View(RedirectHome, map[])
      && o.repository.Keys == repository.Keys + {created.email}
      && o.repository[created.email] == created
      && (forall e :: e in repository ==> o.repository[e] == repository[e])
      && o.effects == [Created(created.email), LoggedIn(created.email)]
  {
    if hasErrors then
      Outcome(View(SignUpView, map[]), repository, [])
    else
      Outcome(View(RedirectHome, map[]), repository[created.email := created], [Created(created.email), LoggedIn(created.email)])
  }

  /**
   * A worked example: the account "a@x.com" holds the token "abc". The right
   * token verifies it, another token is "wrong.token" and an unknown address
   * is "wrong.email".
   */
  lemma VerificationExample(a: AccountData, now: int)
    requires a.email == "a@x.com" && a.emailVerificationToken == Some("abc")
    ensures var repository := map["a@x.com" := a];
      && VerifyEmailTokenOutcome(repository, "abc", "a@x.com", now).repository["a@x.com"].emailVerified
      && ErrorOf(VerifyEmailTokenOutcome(repository, "zzz", "a@x.com", now).view) == Some("wrong.token")
      && ErrorOf(VerifyEmailTokenOutcome(repository, "abc", "missing@x.com", now).view) == Some("wrong.email")
  {
  }

  /** A successful sign-up grows the repository by exactly one account. */
  lemma SignUpAddsOneAccount(repository: map<string, AccountData>, created: AccountData)
    requires created.email !in repository
    ensures |SignUpSubmitOutcome(repository, false, created).repository| == |repository| + 1
  {
  }

  /**
   * Resending the confirmation mail for the current user: refused with an error
   * within the cooldown, otherwise exactly one mail is sent.
   */
  function ResendConfirmEmailOutcome(account: AccountData, now: int): (r: Reply)
    requires account.emailCheckTokenGeneratedAt.Some?
    ensures r.effects == [] <==> !ResendAllowed(account, now)
    ensures ResendAllowed(account, now) ==>
      r.view == View(RedirectHome, map[]) && r.effects == [ConfirmEmailSent(account.email)]
    ensures !ResendAllowed(account, now) ==>
      r.view == View(VerifyEmailView, map["error" := Text(CooldownMessage), "email" := Text(account.email)])
  {
    if !ResendAllowed(account, now) then
      Reply(View(VerifyEmailView, map["error" := Text(CooldownMessage), "email" := Text(account.email)]), [])
    else
      Reply(View(RedirectHome, map[]), [ConfirmEmailSent(account.email)])
  }

  /** The controller over the account repository and the service-call log. */
  class AccountController {
    /** The account repository, keyed by e-mail address. */
    var accounts: map<string, Account>
    /** The repository's contents as values. */
    ghost var repository: map<string, AccountData>
    /** The calls made into the account service, oldest first. */
    ghost var events: seq<Event>

    /** Every account is stored under its own e-mail address, and `repository` holds its values. */
    ghost predicate Valid()
      reads this, accounts.Values
    {
      && accounts.Keys == repository.Keys
      && forall e :: e in accounts ==> accounts[e].email == e && accounts[e].Data() == repository[e]
    }

    constructor (accounts: map<string, Account>)
      requires forall e :: e in accounts ==> accounts[e].email == e
      ensures Valid() && this.accounts == accounts && events == []
    {
      this.accounts := accounts;
      repository := map e | e in accounts :: accounts[e].Data();
      events := [];
    }

    /** GET /signUp: a blank form. */
    method SignUpForm() returns (view: View)
      ensures view.name == SignUpView && view.attributes.Keys == {"signUpForm"}
      ensures view.attributes["signUpForm"] == BlankSignUpForm
    {
      var attributes := map[];
      attributes := attributes["signUpForm" := BlankSignUpForm];
      view := View(SignUpView, attributes);
    }

    /**
     * POST /signUp. `hasErrors` is the validator's verdict on the form and
     * `created` the account the service creates from it.
     */
    method SignUpSubmit(hasErrors: bool, created: AccountData) returns (view: View)
      requires Valid()
      requires !hasErrors ==> created.email !in accounts
      modifies this
      ensures Valid()
      ensures var o := SignUpSubmitOutcome(old(repository), hasErrors, created);
        view == o.view && repository == o.repository && events == old(events) + o.effects
    // the accounts already stored keep their objects; a successful sign-up adds one new object
    ensures hasErrors ==> accounts == old(accounts)
    ensures !hasErrors ==>
      && created.email in accounts && fresh(accounts[created.email])
      && accounts == old(accounts)[created.email := accounts[created.email]]
    {
      if hasErrors {
        view := View(SignUpView, map[]);
        return;
      }
      var newAccount := new Account(created);
      accounts := accounts[created.email := newAccount];
      repository := repository[created.email := created];
      events := events + [Created(created.email)];
      events := events + [LoggedIn(created.email)];
      view := View(RedirectHome, map[]);
    }

    /** GET /verify-email-token?token=..&email=.. */
    method VerifyEmailToken(token: string, email: string, now: int) returns (view: View)
      requires Valid()
      modifies this
      modifies (if email in accounts then {accounts[email]} else {})`emailVerified
      modifies (if email in accounts then {accounts[email]} else {})`joinedAt
      ensures Valid() && accounts == old(accounts)
      ensures var o := VerifyEmailTokenOutcome(old(repository), token, email, now);
        view == o.view && repository == o.repository && events == old(events) + o.effects
    {
      ghost var outcome := VerifyEmailTokenOutcome(repository, token, email, now);
      if email !in accounts {
        view := View(VerifiedEmailView, map["error" := Text("wrong.email")]);
        assert outcome == Outcome(view, repository, []);
        return;
      }
      var account := accounts[email];
      if !account.IsValidToken(token) {
        view := View(VerifiedEmailView, map["error" := Text("wrong.token")]);
        assert outcome == Outcome(view, repository, []);
        return;
      }
      account.Configurate(now);
      repository := repository[email := account.Data()];
      events := events + [LoggedIn(email)];
      forall e | e in accounts
        ensures accounts[e].email == e && accounts[e].Data() == repository[e]
      {
        if e != email {
          assert accounts[e].email != account.email;
        }
      }
      var attributes := map[];
      attributes := attributes["numberOfUser" := Number(|accounts|)];
      attributes := attributes["username" := Text(account.username)];
      view := View(VerifiedEmailView, attributes);
      assert outcome == Outcome(view, repository, [LoggedIn(email)]);
    }

    /** GET /verify-email for the current user. */
    method VerifyEmail(account: Account) returns (view: View)
      ensures view.name == VerifyEmailView && view.attributes == map["email" := Text(account.email)]
    {
      view := View(VerifyEmailView, map["email" := Text(account.email)]);
    }

    /** GET /resend-verification-email for the current user. */
    method ResendConfirmEmail(account: Account, now: int) returns (view: View)
      requires Valid()
      requires account.emailCheckTokenGeneratedAt.Some?
      modifies this
      ensures Valid() && accounts == old(accounts) && repository == old(repository)
      ensures var r := ResendConfirmEmailOutcome(account.Data(), now);
        view == r.view && events == old(events) + r.effects
    {
      if !account.CanSendConfirmEmail(now) {
        var attributes := map[];
        attributes := attributes["error" := Text(CooldownMessage)];
        attributes := attributes["email" := Text(account.email)];
        view := View(VerifyEmailView, attributes);
        return;
      }
      events := events + [ConfirmEmailSent(account.email)];
      view := View(RedirectHome, map[]);
    }
  }
}
