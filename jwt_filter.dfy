/**
 * JwtRequestFilter: once per request, skip the public authentication paths;
 * otherwise take the token from a "Bearer " Authorization header, read the
 * username from it, and put an authentication into the security context when
 * none is there yet, the user loads and the token validates. The filter
 * never answers a request itself: it hands it on to the chain, except when
 * token validation throws, which nothing in the filter catches.
 *
 * Token parsing, signature and expiry checks, and the user lookup are inputs
 * (functions given to the filter).
 */
module JwtFilter {
  import opened Common

  datatype Request = Request(uri: string, authorization: Option<string>)

  /** What loadUserByUsername returns: the username and its granted authorities. */
  datatype UserDetails = UserDetails(username: string, authorities: set<string>)

  /** `getUsernameFromToken`: the subject, or None when parsing throws. */
  type TokenSubject = string -> Option<string>
  /** `loadUserByUsername`: the user's details, or None when it throws. */
  type UserLoader = string -> Option<UserDetails>
  /**
   * `validateToken(token, userDetails)`: its verdict, or None when it throws
   * (it parses the token a second time and reads its expiry date, either of
   * which can fail).
   */
  type TokenValidator = (string, UserDetails) -> Option<bool>

  const BearerPrefix: string := "Bearer "

  /** The URIs that skip all token processing. */
  predicate IsPublicPath(uri: string)
  {
    || StartsWith(uri, "/api/auth/login")
    || StartsWith(uri, "/api/auth/register")
    || StartsWith(uri, "/api/auth/register-admin")
  }

  /** The third public prefix adds nothing: it already starts with the second. */
  lemma RegisterAdminCoveredByRegister(uri: string)
    ensures IsPublicPath(uri) <==> StartsWith(uri, "/api/auth/login") || StartsWith(uri, "/api/auth/register")
  {
    var p := "/api/auth/register";
    if StartsWith(uri, "/api/auth/register-admin") {
      assert uri[..|p|] == "/api/auth/register-admin"[..|p|];
    }
  }

  /** The header's text after its 7-character "Bearer " prefix. */
  function BearerToken(header: Option<string>): (r: Option<string>)
    ensures r.Some? <==> header.Some? && StartsWith(header.value, BearerPrefix)
    ensures r.Some? ==> header.value == BearerPrefix + r.value
  {
    if header.Some? && StartsWith(header.value, BearerPrefix) then Some(header.value[7..]) else None
  }

  /** Taking the prefix off a header built from it gives the token back. */
  lemma BearerRoundTrip(token: string)
    ensures BearerToken(Some(BearerPrefix + token)) == Some(token)
  {
    assert (BearerPrefix + token)[..7] == BearerPrefix;
    assert (BearerPrefix + token)[7..] == token;
  }

  /** The username read from the request: none without a non-empty Bearer token. */
  function ExtractedUsername(header: Option<string>, subject: TokenSubject): (r: Option<string>)
    ensures BearerToken(header).None? ==> r.None?
    ensures BearerToken(header) == Some("") ==> r.None?
    ensures BearerToken(header).Some? && BearerToken(header).value != "" ==> r == subject(BearerToken(header).value)
  {
    match BearerToken(header)
    case None => None
    case Some(token) => if token != "" then subject(token) else None
  }

  /**
   * Validation is reached, and throws: the path is not public, no
   * authentication is present, a username was extracted and the user loads.
   */
  predicate ValidationThrows(current: Option<UserDetails>, req: Request, subject: TokenSubject, load: UserLoader, validate: TokenValidator)
  {
    && !IsPublicPath(req.uri)
    && current.None?
    && ExtractedUsername(req.authorization, subject).Some?
    && load(ExtractedUsername(req.authorization, subject).value).Some?
    && validate(BearerToken(req.authorization).value, load(ExtractedUsername(req.authorization, subject).value).value).None?
  }

  /**
   * The context's authentication after the filter: set to the loaded user
   * exactly when the path is not public, no authentication is present, a
   * username was extracted, the user loads and the token validates. A
   * validation that throws leaves it as it was.
   */
  function AuthenticationAfter(current: Option<UserDetails>, req: Request, subject: TokenSubject, load: UserLoader, validate: TokenValidator): (r: Option<UserDetails>)
    ensures IsPublicPath(req.uri) ==> r == current
    ensures current.Some? ==> r == current
    ensures r != current <==>
      && !IsPublicPath(req.uri)
      && current.None?
      && ExtractedUsername(req.authorization, subject).Some?
      && load(ExtractedUsername(req.authorization, subject).value).Some?
      && validate(BearerToken(req.authorization).value, load(ExtractedUsername(req.authorization, subject).value).value) == Some(true)
    ensures ValidationThrows(current, req, subject, load, validate) ==> r == current
    ensures r != current ==> r == load(ExtractedUsername(req.authorization, subject).value)
  {
    if IsPublicPath(req.uri) then current
    else
      match ExtractedUsername(req.authorization, subject)
      case None => current
      case Some(username) =>
        if current.Some? then current
        else
          match load(username)
          case None => current
          case Some(details) =>
            if validate(BearerToken(req.authorization).value, details) == Some(true) then Some(details) else current
  }

  /**
   * Only a request carrying a non-empty Bearer token to a non-public path
   * can make the filter skip the chain.
   */
  lemma ThrowNeedsBearerToken(current: Option<UserDetails>, req: Request, subject: TokenSubject, load: UserLoader, validate: TokenValidator)
    requires ValidationThrows(current, req, subject, load, validate)
    ensures !IsPublicPath(req.uri) && current.None?
    ensures BearerToken(req.authorization).Some? && BearerToken(req.authorization).value != ""
  {
  }

  /** A request without a Bearer header never becomes authenticated. */
  lemma NoBearerNoAuthentication(current: Option<UserDetails>, req: Request, subject: TokenSubject, load: UserLoader, validate: TokenValidator)
    requires req.authorization.None? || !StartsWith(req.authorization.value, BearerPrefix)
    ensures AuthenticationAfter(current, req, subject, load, validate) == current
  {
  }

  /** The request's security context. */
  class SecurityContext {
    var authentication: Option<UserDetails>

    constructor (authentication: Option<UserDetails>)
      ensures this.authentication == authentication
    {
      this.authentication := authentication;
    }
  }

  class JwtRequestFilter {
    const subject: TokenSubject
    const load: UserLoader
    const validate: TokenValidator

    constructor (subject: TokenSubject, load: UserLoader, validate: TokenValidator)
      ensures this.subject == subject && this.load == load && this.validate == validate
    {
      this.subject := subject;
      this.load := load;
      this.validate := validate;
    }

    /**
     * doFilterInternal; `chainCalls` counts the calls to `chain.doFilter`.
     * A throwing validation leaves the method before the chain is called.
     */
    method DoFilterInternal(req: Request, ctx: SecurityContext) returns (chainCalls: nat)
      modifies ctx
      ensures chainCalls == if ValidationThrows(old(ctx.authentication), req, subject, load, validate) then 0 else 1
      ensures ctx.authentication == AuthenticationAfter(old(ctx.authentication), req, subject, load, validate)
    {
      chainCalls := 0;
      if IsPublicPath(req.uri) {
        chainCalls := chainCalls + 1;
        return;
      }
      var header := req.authorization;
      var username: Option<string> := None;
      var jwtToken: Option<string> := None;
      if header.Some? && StartsWith(header.value, BearerPrefix) {
        jwtToken := Some(header.value[7..]);
        if jwtToken.value != "" {
          username := subject(jwtToken.value);
        }
      }
      if username.Some? && ctx.authentication.None? {
        var details := load(username.value);
        if details.Some? {
          var valid := validate(jwtToken.value, details.value);
          if valid.None? {
            return;
          }
          if valid.value {
            ctx.authentication := details;
          }
        }
      }
      chainCalls := chainCalls + 1;
    }
  }
}
