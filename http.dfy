/** The parts of Starlette's request and response objects that the middlewares touch: the request
    method, its cookies and headers, and a response whose status code and cookie list are changed in
    place by `response.status_code = …` and `response.set_cookie(…)`. */
module Http {
  import opened Wrappers
  import opened Text

  /** An incoming request. ASGI servers hand header names over in lower case, so `headers` is keyed
      by lower-case names; `cookies` is the dictionary parsed from the Cookie header. */
  datatype Request = Request(verb: string, cookies: map<string, string>, headers: map<string, string>)

  /** Header names as an ASGI server delivers them: all in lower case. */
  predicate LowerCaseHeaderNames(headers: map<string, string>) {
    forall name :: name in headers ==> LowerAscii(name) == name
  }

  /** `dict.get(key)`: the value stored under key, or None. */
  function Lookup(m: map<string, string>, key: string): (r: Option<string>)
    ensures r.Some? <==> key in m
    ensures r.Some? ==> r.value == m[key]
  {
    if key in m then Some(m[key]) else None
  }

  /** `request.cookies.get(name)`. */
  function CookieGet(request: Request, name: string): Option<string> {
    Lookup(request.cookies, name)
  }

  /** `request.headers.get(name)` for a name given in lower case (the lookup is case-insensitive
      and the stored names are lower case). */
  function HeaderGet(request: Request, lowerName: string): Option<string> {
    Lookup(request.headers, lowerName)
  }

  /** Python truthiness of an optional string: present and non-empty. */
  predicate Truthy(v: Option<string>) {
    v.Some? && v.value != ""
  }

  /** The header both CSRF guards read, `X-CSRF-Token`, under the lower-case name it is stored by. */
  const CSRF_HEADER_KEY: string := "x-csrf-token"

  /** The `samesite` argument of `set_cookie`: a policy name, or a boolean where a caller passed one. */
  datatype SameSite = SameSitePolicy(policy: string) | SameSiteFlag(flag: bool)

  /** One `Set-Cookie` header as `response.set_cookie` records it. */
  datatype SetCookie = SetCookie(
    key: string,
    value: string,
    httpOnly: bool,
    sameSite: SameSite,
    secure: bool,
    maxAge: Option<int>)

  /** The response the downstream application produced, which a middleware may change before
      returning it. */
  class Response {
    var status: int
    var setCookies: seq<SetCookie>

    constructor (status: int)
      ensures this.status == status && setCookies == []
    {
      this.status := status;
      setCookies := [];
    }

    /** `response.set_cookie(…)`: one more Set-Cookie header, appended after the existing ones. */
    method AddCookie(c: SetCookie)
      modifies this
      ensures setCookies == old(setCookies) + [c]
      ensures status == old(status)
    {
      setCookies := setCookies + [c];
    }

    /** `response.status_code = status`. */
    method SetStatus(status: int)
      modifies this
      ensures this.status == status
      ensures setCookies == old(setCookies)
    {
      this.status := status;
    }
  }
}
