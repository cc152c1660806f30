/**
 * Runs of many requests against the account repository, and the invariants
 * of the verification workflow over any such run: accounts are never removed
 * or un-verified, an account becomes verified only through a request that
 * presented its stored token, and a verified account always has a join time.
 */
module Workflow {
  import opened Wrappers
  import opened Domain
  import opened Accounts

  /** A request that can change the repository. */
  datatype Request =
    | SignUp(hasErrors: bool, created: AccountData)
      /** A click on the e-mailed link. */
    | VerifyEmailToken(token: string, email: string, now: int)
      /** The account service issuing a fresh token to an account. */
    | NewToken(email: string, token: string, now: int)

  /** The repository after one request. */
  function Apply(repository: map<string, AccountData>, r: Request): (after: map<string, AccountData>)
  {
    match r
    case SignUp(hasErrors, created) =>
      // a second account with a taken e-mail is refused by the store and nothing is persisted
      if !hasErrors && created.email in repository then repository
      else SignUpSubmitOutcome(repository, hasErrors, created).repository
    case VerifyEmailToken(token, email, now) =>
      VerifyEmailTokenOutcome(repository, token, email, now).repository
    case NewToken(email, token, now) =>
      if email in repository then repository[email := WithNewToken(repository[email], token, now)] else repository
  }

  /** The repository after the requests of `trace`, in order. */
  function Run(repository: map<string, AccountData>, trace: seq<Request>): (after: map<string, AccountData>)
    decreases |trace|
  {
    if trace == [] then repository
    else Apply(Run(repository, trace[..|trace| - 1]), trace[|trace| - 1])
  }

  /** Every sign-up in `trace` stores an account that is not yet verified. */
  predicate SignUpsUnverified(trace: seq<Request>)
  {
    forall i :: 0 <= i < |trace| && trace[i].SignUp? ==> !trace[i].created.emailVerified
  }

  /** Every verified account of `repository` has a join time. */
  predicate JoinedWhenVerified(repository: map<string, AccountData>)
  {
    forall e :: e in repository && repository[e].emailVerified ==> repository[e].joinedAt.Some?
  }

  /** One request never removes an account, renames it or takes its verification away. */
  lemma ApplyKeepsAccount(repository: map<string, AccountData>, r: Request, e: string)
    requires e in repository
    ensures e in Apply(repository, r)
    ensures Apply(repository, r)[e].username == repository[e].username
    ensures Apply(repository, r)[e].email == repository[e].email
    ensures repository[e].emailVerified ==> Apply(repository, r)[e].emailVerified
  {
  }

  /**
   * If one request turns `e` into a verified account, that request is a
   * verification of `e` with the token `e` held.
   */
  lemma ApplyVerifiesOnlyByToken(repository: map<string, AccountData>, r: Request, e: string)
    requires r.SignUp? ==> !r.created.emailVerified
    requires e in Apply(repository, r) && Apply(repository, r)[e].emailVerified
    requires e !in repository || !repository[e].emailVerified
    ensures r.VerifyEmailToken? && r.email == e
    ensures e in repository && TokenMatches(repository[e], r.token)
  {
  }

  /** One request keeps "a verified account has a join time". */
  lemma ApplyKeepsJoinedWhenVerified(repository: map<string, AccountData>, r: Request)
    requires JoinedWhenVerified(repository)
    requires r.SignUp? ==> !r.created.emailVerified
    ensures JoinedWhenVerified(Apply(repository, r))
  {
  }

  /** `SignUpsUnverified` holds of every prefix of a trace it holds of. */
  lemma SignUpsUnverifiedPrefix(trace: seq<Request>, k: nat)
    requires SignUpsUnverified(trace) && k <= |trace|
    ensures SignUpsUnverified(trace[..k])
  {
  }

  /**
   * No run removes an account, changes its username or e-mail, or takes its
   * verification away.
   */
  lemma {:induction false} RunKeepsAccounts(repository: map<string, AccountData>, trace: seq<Request>, e: string)
    requires e in repository
    ensures e in Run(repository, trace)
    ensures Run(repository, trace)[e].username == repository[e].username
    ensures Run(repository, trace)[e].email == repository[e].email
    ensures repository[e].emailVerified ==> Run(repository, trace)[e].emailVerified
    decreases |trace|
  {
    if trace != [] {
      var prefix := trace[..|trace| - 1];
      RunKeepsAccounts(repository, prefix, e);
      ApplyKeepsAccount(Run(repository, prefix), trace[|trace| - 1], e);
    }
  }

  /**
   * The `i`-th request of `trace` is a verification of `e` presenting the token
   * `e` held just before it.
   */
  predicate VerifiedAt(repository: map<string, AccountData>, trace: seq<Request>, e: string, i: nat)
    requires i < |trace|
  {
    && trace[i].VerifyEmailToken?
    && trace[i].email == e
    && e in Run(repository, trace[..i])
    && TokenMatches(Run(repository, trace[..i])[e], trace[i].token)
  }

  /** A verification step found in a prefix of a trace is one of the whole trace. */
  lemma VerifiedAtExtends(repository: map<string, AccountData>, trace: seq<Request>, e: string, i: nat, k: nat)
    requires i < k <= |trace|
    requires VerifiedAt(repository, trace[..k], e, i)
    ensures VerifiedAt(repository, trace, e, i)
  {
    assert trace[..k][..i] == trace[..i];
    assert trace[..k][i] == trace[i];
  }

  /**
   * An account that is verified after a run, and was not verified (or did not
   * exist) before it, was verified by a request in the run that presented
   * exactly the token the account held at that moment.
   */
  lemma {:induction false} VerifiedOnlyThroughMatchingToken(repository: map<string, AccountData>, trace: seq<Request>, e: string)
    requires SignUpsUnverified(trace)
    requires e in Run(repository, trace) && Run(repository, trace)[e].emailVerified
    requires e !in repository || !repository[e].emailVerified
    ensures exists i: nat :: i < |trace| && VerifiedAt(repository, trace, e, i)
    decreases |trace|
  {
    assert trace != [];
    var n := |trace|;
    var prefix := trace[..n - 1];
    SignUpsUnverifiedPrefix(trace, n - 1);
    var before := Run(repository, prefix);
    if e in before && before[e].emailVerified {
      VerifiedOnlyThroughMatchingToken(repository, prefix, e);
      var i: nat :| i < |prefix| && VerifiedAt(repository, prefix, e, i);
      VerifiedAtExtends(repository, trace, e, i, n - 1);
    } else {
      ApplyVerifiesOnlyByToken(before, trace[n - 1], e);
      assert VerifiedAt(repository, trace, e, n - 1);
    }
  }

  /** Every run keeps "a verified account has a join time". */
  lemma {:induction false} RunKeepsJoinedWhenVerified(repository: map<string, AccountData>, trace: seq<Request>)
    requires JoinedWhenVerified(repository)
    requires SignUpsUnverified(trace)
    ensures JoinedWhenVerified(Run(repository, trace))
    decreases |trace|
  {
    if trace != [] {
      var n := |trace|;
      SignUpsUnverifiedPrefix(trace, n - 1);
      RunKeepsJoinedWhenVerified(repository, trace[..n - 1]);
      ApplyKeepsJoinedWhenVerified(Run(repository, trace[..n - 1]), trace[n - 1]);
    }
  }
}
