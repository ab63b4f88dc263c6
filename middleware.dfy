/** project/middleware.py: the double-submit CSRF guard the application installs. It calls the
    downstream application first, for every request, and then decides: safe methods get a random
    cookie when they carry none and the status 200; unsafe methods must echo their cookie in the
    `X-CSRF-Token` header and then get the status 201.

    `secrets.token_urlsafe(32)` is the parameter `rnd` and `DEBUG` the parameter `debug`. */
module Middleware {
  import opened Wrappers
  import opened Corn
  import opened Http

  /** `settings.CSRF_COOKIE_SAMESITE is str`: the setting is the string "lax", not the type `str`,
      so the cookie's `samesite` argument is the boolean False. */
  const SAMESITE_ARGUMENT: bool := false

  /** The default `cookie_name` of the constructor. */
  const DEFAULT_COOKIE_NAME: string := "csrf_token"

  const HTTP_200_OK: int := 200
  const HTTP_201_CREATED: int := 201

  /** The cookie set on a safe request that carries none: the random token alone, bound to no
      secret, with no max-age. */
  function IssuedCookie(cookieName: string, rnd: string, debug: bool): (c: SetCookie)
    ensures c.key == cookieName && c.value == rnd && c.maxAge.None?
    ensures !c.httpOnly && c.sameSite == SameSiteFlag(false) && c.secure == !debug
  {
    SetCookie(cookieName, rnd, false, SameSiteFlag(SAMESITE_ARGUMENT), !debug, None)
  }

  /** The double-submit comparison: a non-empty header equal to a non-empty cookie. */
  predicate HeaderEchoesCookie(header: Option<string>, cookie: Option<string>) {
    Truthy(header) && Truthy(cookie) && header.value == cookie.value
  }

  /** The decision for an unsafe method. */
  function CheckHeader(header: Option<string>, cookie: Option<string>): (r: Outcome)
    ensures r == Pass <==> header.Some? && cookie.Some? && header.value != "" && header.value == cookie.value
    ensures r.Fail? ==> r.error == Forbidden403
  {
    if HeaderEchoesCookie(header, cookie) then Pass else Fail(Forbidden403)
  }

  /** Round trip: a request that sends back, in the header, the non-empty token its cookie holds is
      accepted. */
  lemma EchoedTokenAccepted(request: Request, cookieName: string, token: string)
    requires token != ""
    requires cookieName in request.cookies && request.cookies[cookieName] == token
    requires CSRF_HEADER_KEY in request.headers && request.headers[CSRF_HEADER_KEY] == token
    ensures CheckHeader(HeaderGet(request, CSRF_HEADER_KEY), CookieGet(request, cookieName)) == Pass
  {
  }

  /** A request is accepted whatever the token's value, as long as header and cookie agree: the
      check ties a request to nothing but itself. */
  lemma AnyAgreeingPairAccepted(verb: string, cookieName: string, value: string)
    requires value != ""
    ensures var forged := Request(verb, map[cookieName := value], map[CSRF_HEADER_KEY := value]);
      CheckHeader(HeaderGet(forged, CSRF_HEADER_KEY), CookieGet(forged, cookieName)) == Pass
  {
  }

  class CustomHeaderMiddleware {
    var secretKey: string
    var cookieName: string

    constructor (secretKey: string, cookieName: string)
      ensures this.secretKey == secretKey && this.cookieName == cookieName
    {
      this.secretKey := secretKey;
      this.cookieName := cookieName;
    }

    /** The constructor called without `cookie_name`. */
    constructor WithDefaultCookie(secretKey: string)
      ensures this.secretKey == secretKey && cookieName == DEFAULT_COOKIE_NAME
    {
      this.secretKey := secretKey;
      cookieName := DEFAULT_COOKIE_NAME;
    }

    /** The downstream application is called once, for every request, before any decision. Safe
        methods get the cookie when they carry no truthy one and the status 200; unsafe methods are
        refused with 403 unless the header echoes the cookie, and then get the status 201; any other
        method's response is returned as it came. The secret key plays no part. */
    method Dispatch(request: Request, downstream: Response, rnd: string, debug: bool) returns (r: Outcome, calls: nat)
      requires LowerCaseHeaderNames(request.headers)
      modifies downstream
      ensures calls == 1
      ensures Classify(request.verb) == Safe ==>
        && r == Pass && downstream.status == HTTP_200_OK
        && downstream.setCookies == old(downstream.setCookies)
             + (if Truthy(CookieGet(request, cookieName)) then [] else [IssuedCookie(cookieName, rnd, debug)])
      ensures Classify(request.verb) == Unsafe ==>
        && r == CheckHeader(HeaderGet(request, CSRF_HEADER_KEY), CookieGet(request, cookieName))
        && downstream.status == (if r == Pass then HTTP_201_CREATED else old(downstream.status))
        && downstream.setCookies == old(downstream.setCookies)
      ensures Classify(request.verb) == Other ==>
        && r == Pass && downstream.status == old(downstream.status)
        && downstream.setCookies == old(downstream.setCookies)
    {
      calls := 1;
      var verb := Classify(request.verb);
      if verb == Safe {
        if !Truthy(CookieGet(request, cookieName)) {
          downstream.AddCookie(IssuedCookie(cookieName, rnd, debug));
        }
        downstream.SetStatus(HTTP_200_OK);
        return Pass, calls;
      }
      var csrfCookie := CookieGet(request, cookieName);
      if verb == Unsafe {
        var csrfHeader := HeaderGet(request, CSRF_HEADER_KEY);
        if !Truthy(csrfHeader) || !Truthy(csrfCookie) || csrfHeader.value != csrfCookie.value {
          return Fail(Forbidden403), calls;
        }
        downstream.SetStatus(HTTP_201_CREATED);
        return Pass, calls;
      }
      return Pass, calls;
    }
  }
}
