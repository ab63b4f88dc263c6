/** project/middlewares.py: the CSRF guard that binds its token to the application's secret key,
    and the JWT middleware that forwards every request.

    `call_next` is the downstream application: the response it produces is the `downstream` object a
    dispatch receives, and `calls` counts how many times the dispatch invoked it (0 when the guard
    raises first). `secrets.token_urlsafe(32)` is the parameter `rnd`, and `DEBUG` the parameter `debug`. */
module Middlewares {
  import opened Wrappers
  import opened Text
  import opened Corn
  import opened Http

  /** The marker between the stripped secret and the random part of an issued token. */
  const BEARER: string := "Bearer"

  /** The default `cookie_name` of the constructor. */
  const DEFAULT_COOKIE_NAME: string := "csrf_token"

  /** `B` does not reappear in "earer", so two occurrences of the marker never overlap. */
  lemma BearerDoesNotOverlap()
    ensures BEARER != [] && BEARER[0] !in BEARER[1..]
  {
    assert BEARER[1..] == "earer";
  }

  /** The token issued to a safe request without a CSRF cookie: the secret key without its hyphens,
      the marker, then the random part. */
  function IssueToken(secretKey: string, rnd: string): (t: string)
    ensures var s := RemoveChar(secretKey, '-');
      |s| <= |t| && t[..|s|] == s && OccursAt(t, BEARER, |s|) && t[|s| + |BEARER|..] == rnd
  {
    var s := RemoveChar(secretKey, '-');
    var t := s + BEARER + rnd;
    assert t[..|s|] == s;
    assert t[|s|..|s| + |BEARER|] == BEARER;
    t
  }

  /** The check on a header that is present: the text before its first marker is non-empty, the
      secret key is non-empty, and the two agree. Equivalently: the header begins with the stripped
      secret, which is non-empty and holds no marker, and the header ends there or a marker follows. */
  function HeaderMatchesSecret(header: string, secretKey: string): (ok: bool)
    ensures var s := RemoveChar(secretKey, '-');
      ok <==> (s != "" && |s| <= |header| && header[..|s|] == s && !Contains(s, BEARER)
               && (|header| == |s| || OccursAt(header, BEARER, |s|)))
  {
    var s := RemoveChar(secretKey, '-');
    var p := BeforeFirst(header, BEARER);
    BearerDoesNotOverlap();
    BeforeFirstIs(header, BEARER, s);
    p != "" && secretKey != "" && p == s
  }

  /** The decision for an unsafe method, from the `X-CSRF-Token` header alone. An absent header
      crashes on `None.split`; a header that fails the check is refused with 403. */
  function CheckHeader(header: Option<string>, secretKey: string): (r: Outcome)
    ensures r == Pass <==> header.Some? && HeaderMatchesSecret(header.value, secretKey)
    ensures r == Fail(Crash) <==> header.None?
    ensures r.Fail? ==> r.error == Crash || r.error == Forbidden403
  {
    match header
    case None => Fail(Crash)
    case Some(h) => if HeaderMatchesSecret(h, secretKey) then Pass else Fail(Forbidden403)
  }

  /** Round trip: an issued token sent back as the header is accepted exactly when the stripped
      secret is non-empty and holds no marker. */
  lemma IssuedTokenRoundTrip(secretKey: string, rnd: string)
    ensures var s := RemoveChar(secretKey, '-');
      CheckHeader(Some(IssueToken(secretKey, rnd)), secretKey) == Pass <==> (s != "" && !Contains(s, BEARER))
  {
  }

  /** With the application's secret key, a version-7 UUID, every issued token is accepted back. */
  lemma SecretKeyTokenAccepted(u: Uuid, rnd: string)
    requires IsUuid7(u)
    ensures CheckHeader(Some(IssueToken(UuidText(u), rnd)), UuidText(u)) == Pass
  {
    StrippedSecretKey(u);
    IssuedTokenRoundTrip(UuidText(u), rnd);
  }

  /** A CSRF guard holding the secret key its tokens are bound to. */
  class CustomHeaderMiddleware {
    var secretKey: string
    var cookieName: string
    var csrfToken: Option<string>

    constructor (secretKey: string, cookieName: string)
      ensures this.secretKey == secretKey && this.cookieName == cookieName && csrfToken == None
    {
      this.secretKey := secretKey;
      this.cookieName := cookieName;
      csrfToken := None;
    }

    /** The constructor called without `cookie_name`. */
    constructor WithDefaultCookie(secretKey: string)
      ensures this.secretKey == secretKey && cookieName == DEFAULT_COOKIE_NAME && csrfToken == None
    {
      this.secretKey := secretKey;
      cookieName := DEFAULT_COOKIE_NAME;
      csrfToken := None;
    }

    /** The cookie set on a safe request that carries none. */
    function IssuedCookie(rnd: string, debug: bool): (c: SetCookie)
      reads this
      ensures c.key == cookieName && c.value == IssueToken(secretKey, rnd)
      ensures !c.httpOnly && c.sameSite == SameSitePolicy("lax") && c.secure == !debug && c.maxAge == Some(40)
    {
      SetCookie(cookieName, IssueToken(secretKey, rnd), CSRF_COOKIE_HTTPONLY,
                SameSitePolicy(CSRF_COOKIE_SAMESITE), !debug, Some(CSRF_COOKIE_MAX_AGE))
    }

    /** Safe methods are forwarded, and get the cookie when they carry no truthy one; unsafe methods
        are forwarded only when the header passes the check, the cookie playing no part; any other
        method is forwarded untouched. The status code is never changed. */
    method Dispatch(request: Request, downstream: Response, rnd: string, debug: bool) returns (r: Outcome, calls: nat)
      requires LowerCaseHeaderNames(request.headers)
      modifies downstream
      ensures downstream.status == old(downstream.status)
      ensures Classify(request.verb) == Safe ==>
        && r == Pass && calls == 1
        && downstream.setCookies == old(downstream.setCookies)
             + (if Truthy(CookieGet(request, cookieName)) then [] else [IssuedCookie(rnd, debug)])
      ensures Classify(request.verb) == Unsafe ==>
        && r == CheckHeader(HeaderGet(request, CSRF_HEADER_KEY), secretKey)
        && calls == (if r == Pass then 1 else 0)
        && downstream.setCookies == old(downstream.setCookies)
      ensures Classify(request.verb) == Other ==>
        r == Pass && calls == 1 && downstream.setCookies == old(downstream.setCookies)
    {
      var verb := Classify(request.verb);
      if verb == Safe {
        if !Truthy(CookieGet(request, cookieName)) {
          downstream.AddCookie(IssuedCookie(rnd, debug));
          return Pass, 1;
        } else {
          return Pass, 1;
        }
      } else if verb == Unsafe {
        var header := HeaderGet(request, CSRF_HEADER_KEY);
        if header.None? {
          return Fail(Crash), 0;
        }
        var csrfHeader := BeforeFirst(header.value, BEARER);
        if csrfHeader == "" || secretKey == "" || csrfHeader != RemoveChar(secretKey, '-') {
          return Fail(Forbidden403), 0;
        }
        return Pass, 1;
      } else {
        return Pass, 1;
      }
    }
  }

  /** `JWTTokenName.ACCESS.value`, the default `header_name` and the first header looked for. */
  const ACCESS_HEADER: string := "token_access"

  /** `JWTTokenName.REFRESH.name`: the member's name, not its value "token_refresh". */
  const REFRESH_HEADER: string := "REFRESH"

  /** The token the JWT middleware collects: the access header's value, else the refresh header's,
      else nothing. */
  function ReadJwtToken(headers: map<string, string>): (t: string)
    ensures t != "" ==> t in headers.Values
    ensures ACCESS_HEADER in headers ==> t == headers[ACCESS_HEADER]
  {
    if |headers| == 0 then ""
    else if ACCESS_HEADER in headers then headers[ACCESS_HEADER]
    else if REFRESH_HEADER in headers then headers[REFRESH_HEADER]
    else ""
  }

  /** Header names arrive in lower case, so the upper-case refresh name is never found: the token
      is the access header's value or nothing. */
  lemma RefreshHeaderNeverRead(headers: map<string, string>)
    requires LowerCaseHeaderNames(headers)
    ensures ReadJwtToken(headers) == if ACCESS_HEADER in headers then headers[ACCESS_HEADER] else ""
  {
    assert LowerAscii(REFRESH_HEADER)[0] == 'r';
  }

  class CustomJWTMiddleware {
    var headerName: string

    constructor (headerName: string)
      ensures this.headerName == headerName
    {
      this.headerName := headerName;
    }

    /** The constructor called without `header_name`. */
    constructor WithDefaultHeader()
      ensures headerName == ACCESS_HEADER
    {
      headerName := ACCESS_HEADER;
    }

    /** Every request is forwarded exactly once and its response returned as it came, whatever
        token the headers carry. */
    method Dispatch(request: Request, downstream: Response) returns (r: Outcome, calls: nat)
      requires LowerCaseHeaderNames(request.headers)
      ensures r == Pass && calls == 1
    {
      var jwtToken := ReadJwtToken(request.headers);
      if |jwtToken| == 0 {
        return Pass, 1;
      }
      return Pass, 1;
    }
  }
}
