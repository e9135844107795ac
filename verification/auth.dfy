/**
  The authentication middleware: where the access token comes from, and
  how the identity provider's answer becomes a 401 response or a call to
  the next handler. The identity provider is an opaque function.
 */
module Auth {
  import opened Wrappers
  import opened Js
  import opened Strings

  /** The parts of a request the middleware reads: the `Authorization` header ("" when absent) and `?token=`. */
  datatype Request = Request(authorization: string, queryToken: Value)

  /** The server's identity-provider settings ("" when not configured). */
  datatype Config = Config(url: string, anonKey: string)

  /**
    The provider's answer for a token: an error message (possibly empty)
    or none, and the user id it reports (any value, absent included); or
    an exception with its message.
   */
  datatype Verdict = Answer(error: Option<string>, userId: Value) | Raised(message: string)

  /** A 401 with its `error` code and optional `message`, or the request passed on with its user id. */
  datatype Outcome = Unauthorized(error: string, message: Option<string>) | Next(userId: Value, token: string)

  const BearerPrefix := "Bearer "

  /**
    The access token: the header after `Bearer ` when it has that prefix,
    otherwise the query token when it is a string, otherwise "".
   */
  function ExtractToken(req: Request): (token: string)
    ensures StartsWith(req.authorization, BearerPrefix) ==> BearerPrefix + token == req.authorization
    ensures !StartsWith(req.authorization, BearerPrefix) && req.queryToken.Str? ==> token == req.queryToken.s
    ensures !StartsWith(req.authorization, BearerPrefix) && !req.queryToken.Str? ==> token == ""
  {
    if StartsWith(req.authorization, BearerPrefix) then
      assert req.authorization == BearerPrefix + req.authorization[7..];
      req.authorization[7..]
    else if req.queryToken.Str? then req.queryToken.s
    else ""
  }

  /** Bearer round trip: a header built from any token yields that token, whatever the query holds. */
  lemma BearerRoundTrip(token: string, query: Value)
    ensures ExtractToken(Request(BearerPrefix + token, query)) == token
  {
    assert (BearerPrefix + token)[..|BearerPrefix|] == BearerPrefix;
  }

  /** `e?.message || fallback` */
  function MessageOr(m: string, fallback: string): (r: string)
    ensures r != "" || fallback == ""
    ensures m != "" ==> r == m
  {
    if m != "" then m else fallback
  }

  /** The error `getSupabase` throws when a setting is missing, URL first. */
  function ConfigError(cfg: Config): (r: Option<string>)
    ensures r.None? <==> cfg.url != "" && cfg.anonKey != ""
    ensures cfg.url == "" ==> r == Some("SUPABASE_URL not configured")
  {
    if cfg.url == "" then Some("SUPABASE_URL not configured")
    else if cfg.anonKey == "" then Some("SUPABASE_ANON_KEY not configured")
    else None
  }

  /**
    `authMiddleware`: no token is `missing_token`; a missing setting, a
    provider exception, a provider error or a falsy user id is
    `unauthorized` with a message; otherwise the request goes on with the
    reported user id.
   */
  function Authenticate(req: Request, cfg: Config, verify: string -> Verdict): (r: Outcome)
    ensures ExtractToken(req) == "" ==> r == Unauthorized("missing_token", None)
    ensures r.Next? <==>
      && ExtractToken(req) != "" && ConfigError(cfg).None?
      && verify(ExtractToken(req)).Answer?
      && verify(ExtractToken(req)).error.None?
      && Truthy(verify(ExtractToken(req)).userId)
    ensures r.Next? ==> r == Next(verify(ExtractToken(req)).userId, ExtractToken(req))
    ensures r.Unauthorized? && ExtractToken(req) != "" ==> r.error == "unauthorized" && r.message.Some? && r.message.value != ""
  {
    var token := ExtractToken(req);
    if token == "" then Unauthorized("missing_token", None)
    else match ConfigError(cfg)
      case Some(msg) => Unauthorized("unauthorized", Some(msg))
      case None =>
        match verify(token)
        case Raised(m) => Unauthorized("unauthorized", Some(MessageOr(m, "unauthorized")))
        case Answer(error, userId) =>
          if error.Some? then Unauthorized("unauthorized", Some(MessageOr(error.value, "invalid_token")))
          else if !Truthy(userId) then Unauthorized("unauthorized", Some("invalid_token"))
          else Next(userId, token)
  }

  /** Without a token the provider is not consulted: any two providers give the same answer. */
  lemma MissingTokenIgnoresVerifier(req: Request, cfg: Config, v1: string -> Verdict, v2: string -> Verdict)
    requires ExtractToken(req) == ""
    ensures Authenticate(req, cfg, v1) == Authenticate(req, cfg, v2)
  {
  }

  /** Without the provider settings every request with a token is rejected, whatever the provider says. */
  lemma UnconfiguredRejects(req: Request, cfg: Config, verify: string -> Verdict)
    requires ExtractToken(req) != "" && (cfg.url == "" || cfg.anonKey == "")
    ensures Authenticate(req, cfg, verify).Unauthorized?
    ensures Authenticate(req, cfg, verify).error == "unauthorized"
  {
  }
}
