/** The Passport JWT strategy: once the bearer token's signature and expiry
    have been checked (RS256, expiry not ignored), its payload is projected to
    the user identity put on the request. */
module JwtStrategy {
  import opened Wrappers

  /** The claims of a gateway token; only userLoginId is always present. */
  datatype JwtAuthPayload = JwtAuthPayload(
    userLoginId: string,
    jti: Option<string>,
    exp: Option<int>,
    iat: Option<int>,
    iss: Option<string>,
    sub: Option<string>,
    aud: Option<string>,
    nbf: Option<int>)

  /** What `req.user` holds on an authenticated request. */
  datatype AuthenticatedUser = AuthenticatedUser(userLoginId: string, jti: Option<string>)

  /** validate: keeps the subject and the token id, drops every other claim;
      it accepts every payload that reaches it. */
  function Validate(payload: JwtAuthPayload): (user: AuthenticatedUser)
    ensures user.userLoginId == payload.userLoginId
    ensures user.jti == payload.jti
  {
    AuthenticatedUser(payload.userLoginId, payload.jti)
  }

  /** Two payloads that agree on userLoginId and jti give the same user,
      whatever their other claims: those claims are dropped. */
  lemma ValidateDropsOtherClaims(p: JwtAuthPayload, q: JwtAuthPayload)
    requires p.userLoginId == q.userLoginId && p.jti == q.jti
    ensures Validate(p) == Validate(q)
  {
  }

  /** The user identity is the payload's, and a distinct jti distinguishes
      two tokens of one user. */
  lemma ValidateInjectiveOnIdentity(p: JwtAuthPayload, q: JwtAuthPayload)
    requires Validate(p) == Validate(q)
    ensures p.userLoginId == q.userLoginId && p.jti == q.jti
  {
  }
}
