/** The CSRF guard: a per-session secret store, token verification against the
    stored secret, and the middleware that gates state-changing requests. */
module Csrf {
  import opened Common

  /** The token library, whose code is not part of this model: `create(secret)`
      derives a token, `verify(secret, token)` checks one. Nothing is assumed
      about them except where a lemma says so in its `requires`. */
  datatype TokenScheme = TokenScheme(create: string -> string, verify: (string, string) -> bool)

  /** The session claim attached to a request. */
  datatype Session = Session(userId: string)

  /** What the middleware looks at: the method, the path it is handed, the
      session claim and the `x-csrf-token` header. */
  datatype Request = Request(httpMethod: string, path: string, session: Option<Session>,
                             csrfHeader: Option<string>)

  /** `next()` or an error response with its status and message. */
  datatype Verdict = Next | Deny(status: int, error: string)

  const NotAuthenticated := "Not authenticated"
  const TokenMissing := "CSRF token missing"
  const TokenInvalid := "Invalid CSRF token"

  const Unauthorized := 401
  const Forbidden := 403

  /** The methods the middleware lets through unchecked. */
  const SafeMethods: set<string> := {"GET", "HEAD", "OPTIONS"}

  /** The safe methods of section 9.2.1 of RFC 9110. */
  const Rfc9110SafeMethods: set<string> := {"GET", "HEAD", "OPTIONS", "TRACE"}

  /** The bootstrap paths the middleware lets through unchecked. */
  const ExemptPaths: set<string> := {"/api/auth/login", "/api/auth/signup", "/api/csrf-token"}

  /** `req.session?.userId` is truthy. */
  predicate SignedIn(session: Option<Session>)
  {
    session.Some? && session.value.userId != ""
  }

  /** `verifyCsrfToken(sessionId, token)` against the secret store `secrets`. */
  function VerifyCsrfToken(secrets: map<string, string>, tokens: TokenScheme,
                           sessionId: string, token: string): (ok: bool)
    ensures sessionId !in secrets ==> !ok
    ensures sessionId in secrets && secrets[sessionId] == "" ==> !ok
    ensures sessionId in secrets && secrets[sessionId] != "" ==>
              ok == tokens.verify(secrets[sessionId], token)
  {
    if sessionId !in secrets || secrets[sessionId] == "" then false
    else tokens.verify(secrets[sessionId], token)
  }

  /** `csrfMiddleware(req, res, next)` as a decision over the request and the
      current secret store. */
  function CsrfMiddleware(req: Request, secrets: map<string, string>, tokens: TokenScheme): (v: Verdict)
    ensures req.httpMethod in SafeMethods ==> v == Next
    ensures req.path in ExemptPaths ==> v == Next
    ensures v == Next <==>
              || req.httpMethod in SafeMethods
              || req.path in ExemptPaths
              || (SignedIn(req.session) && Truthy(req.csrfHeader)
                  && VerifyCsrfToken(secrets, tokens, req.session.value.userId, req.csrfHeader.value))
    ensures v == Deny(Unauthorized, NotAuthenticated) <==>
              req.httpMethod !in SafeMethods && req.path !in ExemptPaths && !SignedIn(req.session)
    ensures v == Deny(Forbidden, TokenMissing) <==>
              req.httpMethod !in SafeMethods && req.path !in ExemptPaths && SignedIn(req.session)
              && !Truthy(req.csrfHeader)
    ensures v == Deny(Forbidden, TokenInvalid) <==>
              req.httpMethod !in SafeMethods && req.path !in ExemptPaths && SignedIn(req.session)
              && Truthy(req.csrfHeader)
              && !VerifyCsrfToken(secrets, tokens, req.session.value.userId, req.csrfHeader.value)
  {
    if req.httpMethod in SafeMethods then Next
    else if req.path in ExemptPaths then Next
    else if !SignedIn(req.session) then Deny(Unauthorized, NotAuthenticated)
    else if !Truthy(req.csrfHeader) then Deny(Forbidden, TokenMissing)
    else if !VerifyCsrfToken(secrets, tokens, req.session.value.userId, req.csrfHeader.value) then
      Deny(Forbidden, TokenInvalid)
    else Next
  }

  /** Every method let through unchecked is safe in the sense of RFC 9110
      section 9.2.1; TRACE, though safe there, is checked. */
  lemma SafeMethodsWithinRfc9110()
    ensures SafeMethods < Rfc9110SafeMethods
    ensures "TRACE" in Rfc9110SafeMethods - SafeMethods
  {
    assert "TRACE" !in SafeMethods;
  }

  /** The middleware's verdict depends on the secret store only through the
      secret held for the request's own session. */
  lemma MiddlewareReadsOnlyOwnSecret(req: Request, secrets1: map<string, string>,
                                     secrets2: map<string, string>, tokens: TokenScheme)
    requires SignedIn(req.session) ==>
               var id := req.session.value.userId;
               (id in secrets1 <==> id in secrets2) && (id in secrets1 ==> secrets1[id] == secrets2[id])
    ensures CsrfMiddleware(req, secrets1, tokens) == CsrfMiddleware(req, secrets2, tokens)
  {
  }

  /** Issuing a secret for one session does not change what verifies under any other. */
  lemma IssueKeepsOtherSessions(secrets: map<string, string>, tokens: TokenScheme,
                                sessionId: string, secret: string, other: string, token: string)
    requires other != sessionId
    ensures VerifyCsrfToken(secrets[sessionId := secret], tokens, other, token)
              == VerifyCsrfToken(secrets, tokens, other, token)
  {
  }

  /** The token handed out with a new secret verifies under that session at
      once, provided the library accepts a token derived from a secret. */
  lemma IssuedTokenVerifies(secrets: map<string, string>, tokens: TokenScheme,
                            sessionId: string, secret: string)
    requires secret != ""
    requires tokens.verify(secret, tokens.create(secret))
    ensures VerifyCsrfToken(secrets[sessionId := secret], tokens, sessionId, tokens.create(secret))
  {
  }

  /** Re-issuing overwrites the secret: after a new secret is stored for a
      session, what verifies under it no longer depends on anything the store
      held before, so an earlier secret (and the tokens derived from it) is
      forgotten. */
  lemma ReissueForgetsOldSecret(secrets1: map<string, string>, secrets2: map<string, string>,
                                tokens: TokenScheme, sessionId: string, newSecret: string, token: string)
    ensures VerifyCsrfToken(secrets1[sessionId := newSecret], tokens, sessionId, token)
              == VerifyCsrfToken(secrets2[sessionId := newSecret], tokens, sessionId, token)
  {
  }

  /** The module-level `tokenStore` together with the `tokens` instance. */
  class CsrfTokens {
    const tokens: TokenScheme
    var secrets: map<string, string>

    constructor (tokens: TokenScheme)
      ensures this.tokens == tokens && secrets == map[]
    {
      this.tokens := tokens;
      secrets := map[];
    }

    /** `generateCsrfToken(sessionId)`: stores `secret` (what secretSync gave)
        for the session, replacing any earlier one, and returns a token derived
        from it. */
    method GenerateCsrfToken(sessionId: string, secret: string) returns (token: string)
      modifies this
      ensures secrets == old(secrets)[sessionId := secret]
      ensures token == tokens.create(secret)
      ensures secret != "" && tokens.verify(secret, token) ==>
                VerifyCsrfToken(secrets, tokens, sessionId, token)
    {
      token := tokens.create(secret);
      secrets := secrets[sessionId := secret];
    }
  }
}
