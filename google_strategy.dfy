/** The Passport Google strategy's `validate`: the provider's profile becomes
    the OAuth user handed to Passport's `done` callback. */
module GoogleStrategy {
  import opened Wrappers

  /** A profile from the provider; emails and photos are the `value`s of
      their entries, in order. */
  datatype OAuthProfile = OAuthProfile(
    id: string,
    displayName: string,
    emails: seq<string>,
    photos: seq<string>,
    provider: string)

  /** The user passed to login; `email` and `picture` are undefined when the
      profile has no entry, and `provider` is the profile's string
      as it came (the source casts it without checking). */
  datatype OAuthUser = OAuthUser(
    id: string,
    displayName: string,
    email: Option<string>,
    picture: Option<string>,
    provider: string)

  /** The error argument `done` receives. */
  datatype StrategyError = StrategyError(message: string)

  /** A call `done(err, user)`. */
  datatype DoneCall = DoneCall(err: Option<StrategyError>, user: OAuthUser)

  /** `arr[0]?.value`. */
  function First(values: seq<string>): (r: Option<string>)
    ensures r.Some? <==> |values| > 0
    ensures r.Some? ==> r.value == values[0]
  {
    if |values| > 0 then Some(values[0]) else None
  }

  function ToOAuthUser(profile: OAuthProfile): (user: OAuthUser)
    ensures user.id == profile.id && user.displayName == profile.displayName
    ensures user.email == First(profile.emails)
    ensures user.picture == First(profile.photos)
    ensures user.provider == profile.provider
  {
    OAuthUser(profile.id, profile.displayName, First(profile.emails), First(profile.photos), profile.provider)
  }

  /** validate: the calls it makes to `done`, in order; the OAuth access and
      refresh tokens are not looked at. */
  function Validate(accessToken: string, refreshToken: string, profile: OAuthProfile): (calls: seq<DoneCall>)
    ensures |calls| == 1
    ensures calls[0].err == None
    ensures calls[0].user == ToOAuthUser(profile)
  {
    [DoneCall(None, ToOAuthUser(profile))]
  }

  /** The provider tag is not checked against 'google' and 'facebook':
      whatever it is, the login goes through and carries it. */
  lemma ProviderNotChecked(accessToken: string, refreshToken: string, profile: OAuthProfile)
    ensures Validate(accessToken, refreshToken, profile)[0].err == None
    ensures Validate(accessToken, refreshToken, profile)[0].user.provider == profile.provider
  {
  }

  /** With no emails and no photos the user has neither email nor picture. */
  lemma EmptyProfileLists(id: string, name: string, provider: string)
    ensures ToOAuthUser(OAuthProfile(id, name, [], [], provider)).email == None
    ensures ToOAuthUser(OAuthProfile(id, name, [], [], provider)).picture == None
  {
  }

  /** Two profiles give the same user exactly when they agree on the id, the
      name, the provider, the first email and the first photo. */
  lemma OnlyFirstEntriesMatter(p: OAuthProfile, q: OAuthProfile)
    ensures ToOAuthUser(p) == ToOAuthUser(q) <==>
      p.id == q.id && p.displayName == q.displayName && p.provider == q.provider
      && First(p.emails) == First(q.emails) && First(p.photos) == First(q.photos)
  {
  }
}
