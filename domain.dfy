/**
 * The account entity (`com.studylink.domain.Account`): its persisted fields and
 * the four operations on its e-mail verification state.
 *
 * The clock is an integer number of seconds passed in by the caller, and the
 * random UUID of a fresh token is an argument.
 */
module Domain {
  import opened Wrappers

  /** The resend cooldown, one hour in seconds. */
  const ResendCooldown: int := 3600

  /**
   * The fields of an account that the verification workflow reads or writes,
   * as one value: its identity and its four verification fields.
   */
  datatype AccountData = AccountData(
    username: string,
    email: string,
    emailVerified: bool,
    emailVerificationToken: Option<string>,
    emailCheckTokenGeneratedAt: Option<int>,
    joinedAt: Option<int>)

  /** `token` is exactly the stored token; an account without a token accepts none. */
  predicate TokenMatches(a: AccountData, token: string): (r: bool)
    ensures r <==> a.emailVerificationToken.Some? && a.emailVerificationToken.value == token
    ensures a.emailVerificationToken.None? ==> !r
  {
    a.emailVerificationToken == Some(token)
  }

  /** The last token was issued strictly more than an hour before `now`. */
  predicate ResendAllowed(a: AccountData, now: int): (r: bool)
    requires a.emailCheckTokenGeneratedAt.Some?
    ensures r <==> now > a.emailCheckTokenGeneratedAt.value + ResendCooldown
  {
    a.emailCheckTokenGeneratedAt.value < now - ResendCooldown
  }

  /** The account after a fresh token `token` was issued at `now`. */
  function WithNewToken(a: AccountData, token: string, now: int): (r: AccountData)
    ensures r.emailVerificationToken == Some(token)
    ensures r.emailCheckTokenGeneratedAt == Some(now)
    ensures r.emailVerified == a.emailVerified && r.joinedAt == a.joinedAt
    ensures r.username == a.username && r.email == a.email
    ensures forall t :: TokenMatches(r, t) <==> t == token
    ensures !ResendAllowed(r, now)
  {
    a.(emailVerificationToken := Some(token), emailCheckTokenGeneratedAt := Some(now))
  }

  /** The account after it was marked verified at `now`. */
  function Configured(a: AccountData, now: int): (r: AccountData)
    ensures r.emailVerified && r.joinedAt == Some(now)
    ensures r.emailVerificationToken == a.emailVerificationToken
    ensures r.emailCheckTokenGeneratedAt == a.emailCheckTokenGeneratedAt
    ensures r.username == a.username && r.email == a.email
    ensures forall t :: TokenMatches(r, t) <==> TokenMatches(a, t)
  {
    a.(emailVerified := true, joinedAt := Some(now))
  }

  /**
   * The comparison is exact: an account accepts at most one token, the one it
   * stores, and an account that never had a token accepts none.
   */
  lemma TokenMatchesExactly(a: AccountData, t: string, u: string)
    ensures TokenMatches(a, t) ==> (TokenMatches(a, u) <==> u == t)
    ensures a.emailVerificationToken.None? ==> !TokenMatches(a, t)
  {
  }

  /** Marking an account verified twice at the same instant is marking it once. */
  lemma ConfiguredIdempotent(a: AccountData, now: int)
    ensures Configured(Configured(a, now), now) == Configured(a, now)
  {
  }

  /**
   * Marking an already verified account again keeps it verified but moves its
   * join time to the new instant.
   */
  lemma ConfiguredRestampsJoinedAt(a: AccountData, now: int)
    requires a.emailVerified && a.joinedAt.Some? && a.joinedAt.value != now
    ensures Configured(a, now).emailVerified
    ensures Configured(a, now).joinedAt != a.joinedAt
  {
  }

  /** The cooldown is strict: refused at exactly one hour, allowed one second later. */
  lemma ResendCooldownBoundary(a: AccountData, now: int)
    requires a.emailCheckTokenGeneratedAt.Some?
    ensures ResendAllowed(a, now) <==> now > a.emailCheckTokenGeneratedAt.value + ResendCooldown
    ensures !ResendAllowed(a, a.emailCheckTokenGeneratedAt.value + ResendCooldown)
    ensures ResendAllowed(a, a.emailCheckTokenGeneratedAt.value + ResendCooldown + 1)
  {
  }

  /** The entity object: its fields are updated in place. */
  class Account {
    var id: int
    var username: string
    var email: string
    var password: string
    var profileImage: string
    var emailVerified: bool
    var emailVerificationToken: Option<string>
    var emailCheckTokenGeneratedAt: Option<int>
    var joinedAt: Option<int>
    var bio: string
    var url: string
    var occupation: string
    var location: string
    var studyCreatedByEmail: bool
    var studyCreatedByWeb: bool
    var studyEnrollmentResultByEmail: bool
    var studyEnrollmentResultByWeb: bool
    var studyUpdatedByEmail: bool
    var studyUpdatedByWeb: bool

    /** The current values of the workflow's fields. */
    function Data(): (d: AccountData)
      reads this
    {
      AccountData(username, email, emailVerified, emailVerificationToken, emailCheckTokenGeneratedAt, joinedAt)
    }

    /** An account as the sign-up service builds it; the other fields keep their defaults. */
    constructor (d: AccountData)
      ensures Data() == d
    {
      username, email := d.username, d.email;
      emailVerified := d.emailVerified;
      emailVerificationToken := d.emailVerificationToken;
      emailCheckTokenGeneratedAt := d.emailCheckTokenGeneratedAt;
      joinedAt := d.joinedAt;
    }

    /** Stores `token` (the fresh UUID) and the issuance time `now`. */
    method GenerateEmailVerificationToken(token: string, now: int)
      modifies this`emailVerificationToken, this`emailCheckTokenGeneratedAt
      ensures Data() == WithNewToken(old(Data()), token, now)
      ensures IsValidToken(token) && !CanSendConfirmEmail(now)
    {
      emailVerificationToken := Some(token);
      emailCheckTokenGeneratedAt := Some(now);
    }

    /** Marks the account verified and stamps its join time with `now`. */
    method Configurate(now: int)
      modifies this`emailVerified, this`joinedAt
      ensures Data() == Configured(old(Data()), now)
    {
      emailVerified := true;
      joinedAt := Some(now);
    }

    /** Exact comparison of `token` with the stored token. */
    predicate IsValidToken(token: string): (r: bool)
      reads this
      ensures r <==> emailVerificationToken == Some(token)
      ensures emailVerificationToken.None? ==> !r
    {
      TokenMatches(Data(), token)
    }

    /** Whether the resend cooldown has passed at `now`. */
    predicate CanSendConfirmEmail(now: int): (r: bool)
      requires emailCheckTokenGeneratedAt.Some?
      reads this
      ensures r <==> now > emailCheckTokenGeneratedAt.value + ResendCooldown
    {
      ResendAllowed(Data(), now)
    }
  }
}
