/** The collector's authentication gate (backend/src/middleware/auth.ts). Tokens are JSON Web Tokens
    (RFC 7519) signed with HS256 (section 3.2 of RFC 7518); signature checking is the `verify`
    oracle, which yields the token's claims when the token verifies under the given secret and
    nothing when `jwt.verify` would throw. */
module Auth {
  import opened Wrappers
  import opened Text

  type Claims = map<string, string>

  /** What the gate does with a request: call `next` with `req.user` set to the claims, or answer 401
      with the error text. */
  datatype Decision = Next(user: Claims) | Unauthorized(error: string)

  /** `req.headers.authorization?.split(' ')[1]`, with an empty second part counting as no token. */
  function BearerToken(authorization: Option<string>): (t: Option<string>)
    ensures t.Some? ==> t.value != "" && ' ' !in t.value
    ensures t.Some? <==> authorization.Some? && |SplitOn(authorization.value, ' ')| >= 2
                         && SplitOn(authorization.value, ' ')[1] != ""
  {
    if authorization.None? then None
    else
      var parts := SplitOn(authorization.value, ' ');
      if |parts| >= 2 && parts[1] != "" then Some(parts[1]) else None
  }

  /** `process.env.AGENT_SECRET || 'default-secret'`: an unset or empty variable falls back. */
  function AgentSecret(env: Option<string>): (s: string)
    ensures s != ""
    ensures env.Some? && env.value != "" ==> s == env.value
  {
    if env.Some? && env.value != "" then env.value else "default-secret"
  }

  predicate IsAgentPath(path: string)
  {
    Contains(path, "/agent/")
  }

  /** `authMiddleware`. */
  function Authenticate(authorization: Option<string>, path: string, agentSecretEnv: Option<string>,
                        jwtSecret: string, verify: (string, string) -> Option<Claims>): (d: Decision)
    ensures BearerToken(authorization).None? ==> d == Unauthorized("No token provided")
    ensures d.Next? ==> BearerToken(authorization).Some?
  {
    match BearerToken(authorization)
    case None => Unauthorized("No token provided")
    case Some(token) =>
      if IsAgentPath(path) then
        match verify(token, AgentSecret(agentSecretEnv))
        case None => Unauthorized("Invalid agent token")
        case Some(claims) =>
          if "type" in claims && claims["type"] == "agent" then Next(claims)
          else Unauthorized("Invalid agent token type")
      else
        match verify(token, jwtSecret)
        case None => Unauthorized("Invalid token")
        case Some(claims) => Next(claims)
  }

  /** On an agent path only the agent secret is consulted: the JWT secret makes no difference. */
  lemma AgentPathIgnoresJwtSecret(authorization: Option<string>, path: string, agentSecretEnv: Option<string>,
                                  jwtSecret1: string, jwtSecret2: string, verify: (string, string) -> Option<Claims>)
    requires IsAgentPath(path)
    ensures Authenticate(authorization, path, agentSecretEnv, jwtSecret1, verify)
         == Authenticate(authorization, path, agentSecretEnv, jwtSecret2, verify)
  {
  }

  /** An agent path lets a request through iff its token verifies under the agent secret and claims
      `type: agent`; the claims become `req.user`. A verification failure and a wrong type are
      told apart. */
  lemma AgentPathDecision(authorization: Option<string>, path: string, agentSecretEnv: Option<string>,
                          jwtSecret: string, verify: (string, string) -> Option<Claims>)
    requires IsAgentPath(path) && BearerToken(authorization).Some?
    ensures var d := Authenticate(authorization, path, agentSecretEnv, jwtSecret, verify);
      var v := verify(BearerToken(authorization).value, AgentSecret(agentSecretEnv));
      && (d.Next? <==> v.Some? && "type" in v.value && v.value["type"] == "agent")
      && (d.Next? ==> d.user == v.value)
      && (v.None? ==> d == Unauthorized("Invalid agent token"))
      && (v.Some? && !d.Next? ==> d == Unauthorized("Invalid agent token type"))
  {
  }

  /** Any other path lets a request through iff its token verifies under the JWT secret, whatever its
      claims; the claims become `req.user`. */
  lemma OtherPathDecision(authorization: Option<string>, path: string, agentSecretEnv: Option<string>,
                          jwtSecret: string, verify: (string, string) -> Option<Claims>)
    requires !IsAgentPath(path) && BearerToken(authorization).Some?
    ensures var d := Authenticate(authorization, path, agentSecretEnv, jwtSecret, verify);
      var v := verify(BearerToken(authorization).value, jwtSecret);
      && (d.Next? <==> v.Some?)
      && (d.Next? ==> d.user == v.value)
      && (v.None? ==> d == Unauthorized("Invalid token"))
  {
  }

  /** The usual `Bearer <token>` header yields the token. */
  lemma BearerHeader(token: string)
    requires token != "" && ' ' !in token
    ensures BearerToken(Some("Bearer " + token)) == Some(token)
  {
    assert "Bearer " + token == "Bearer" + [' '] + token;
    SplitOnPrefix("Bearer", token, ' ');
    SplitOnNoSeparator(token, ' ');
  }

  /** A header without a space has no second part, so it carries no token. */
  lemma HeaderWithoutSpace(authorization: string)
    requires ' ' !in authorization
    ensures BearerToken(Some(authorization)).None?
  {
    SplitOnNoSeparator(authorization, ' ');
  }
}
