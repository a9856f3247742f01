/**
 * The `useCookies` wrapper. The cookie library stays abstract: each operation
 * returns the call it makes on the library, with the arguments it forwards.
 */
module Cookies {
  import opened Wrappers
  import opened JsValues

  datatype Expires = ExpiresText(text: string) | ExpiresSeconds(seconds: int) | ExpiresDate(epochMs: int)

  datatype SameSite = SameSiteFlag(flag: bool) | Lax | Strict | SameSiteNone

  /** `CookieOptions`; every field may be absent. */
  datatype CookieOptions = CookieOptions(
    path: Option<string>,
    expires: Option<Expires>,
    maxAge: Option<int>,
    domain: Option<string>,
    secure: Option<bool>,
    httpOnly: Option<bool>,
    sameSite: Option<SameSite>)

  /** A call on the cookie library, with the arguments in the order it takes them. */
  datatype CookieCall =
    | SetCall(name: string, value: JsValue, expires: Option<Expires>, path: Option<string>,
              domain: Option<string>, secure: Option<bool>, sameSite: Option<SameSite>)
    | GetCall(name: string)
    | RemoveCall(name: string, path: Option<string>, domain: Option<string>,
                 secure: Option<bool>, sameSite: Option<SameSite>)

  /** The `secure` flag forwarded by the `setCookie` spread: forced on outside local development. */
  function SetCookieSecure(isLocal: bool, options: CookieOptions): (r: Option<bool>)
    ensures !isLocal ==> r == Some(true)
    ensures isLocal ==> r == options.secure
  {
    var shouldUseSecure := !isLocal;
    if shouldUseSecure then Some(true) else options.secure
  }

  /** The `secure` flag after `{ ...options, ...(shouldUseSecure && { secure: true }) }`. */
  function RemoveCookieSecure(isLocal: bool, options: CookieOptions): (r: Option<bool>)
    ensures !isLocal ==> r == Some(true)
    ensures isLocal ==> r == options.secure
  {
    var shouldUseSecure := !isLocal;
    // spreading `false` adds no property, so `secure` stays as given
    var spread: Option<bool> := if shouldUseSecure then Some(true) else None;
    if spread.Some? then spread else options.secure
  }

  /** `setCookie(name, value, isLocal, options)`. `maxAge` and `httpOnly` are not forwarded. */
  function SetCookie(name: string, value: JsValue, isLocal: bool, options: CookieOptions): (r: CookieCall)
    ensures r.SetCall? && r.name == name && r.value == value
    ensures r.expires == options.expires && r.path == options.path
    ensures r.domain == options.domain && r.sameSite == options.sameSite
    ensures r.secure == (if isLocal then options.secure else Some(true))
  {
    var secure := SetCookieSecure(isLocal, options);
    SetCall(name, value, options.expires, options.path, options.domain, secure, options.sameSite)
  }

  /** `getCookie(name)`: the name is passed on as it is. */
  function GetCookie(name: string): (r: CookieCall)
    ensures r.GetCall? && r.name == name
  {
    GetCall(name)
  }

  /** `removeCookie(name, isLocal, options)`. */
  function RemoveCookie(name: string, isLocal: bool, options: CookieOptions): (r: CookieCall)
    ensures r.RemoveCall? && r.name == name
    ensures r.path == options.path && r.domain == options.domain && r.sameSite == options.sameSite
    ensures r.secure == (if isLocal then options.secure else Some(true))
  {
    RemoveCall(name, options.path, options.domain, RemoveCookieSecure(isLocal, options), options.sameSite)
  }

  /** `maxAge` and `httpOnly` have no influence on what `setCookie` forwards. */
  lemma SetCookieIgnoresMaxAgeAndHttpOnly(name: string, value: JsValue, isLocal: bool, options: CookieOptions,
                                          maxAge: Option<int>, httpOnly: Option<bool>)
    ensures SetCookie(name, value, isLocal, options.(maxAge := maxAge, httpOnly := httpOnly))
              == SetCookie(name, value, isLocal, options)
  {
  }

  /** Setting and removing a cookie with the same arguments agree on `secure`. */
  lemma SetAndRemoveAgreeOnSecure(name: string, value: JsValue, isLocal: bool, options: CookieOptions)
    ensures SetCookie(name, value, isLocal, options).secure == RemoveCookie(name, isLocal, options).secure
  {
  }

  /** `setArrayInCookie`: one `setCookie` for a non-empty array, no call otherwise. */
  function SetArrayInCookie(name: string, arr: JsValue, isLocal: bool, options: CookieOptions): (r: seq<CookieCall>)
    ensures |r| <= 1
    ensures |r| == 1 <==> arr.Arr? && |arr.items| > 0
    ensures |r| == 1 ==> r[0] == SetCookie(name, arr, isLocal, options)
  {
    if Truthy(arr) && IsArray(arr) && |arr.items| > 0 then
      [SetCookie(name, arr, isLocal, options)]
    else
      []
  }

  /**
   * `setObjectInCookie`: one `setCookie` for a truthy non-array value with at
   * least one own key, no call otherwise.
   */
  function SetObjectInCookie(name: string, obj: JsValue, isLocal: bool, options: CookieOptions): (r: seq<CookieCall>)
    ensures |r| <= 1
    ensures |r| == 1 <==> Truthy(obj) && !obj.Arr? && OwnKeyCount(obj) > 0
    ensures |r| == 1 ==> r[0] == SetCookie(name, obj, isLocal, options)
    ensures obj.Obj? ==> (|r| == 1 <==> |obj.props| > 0)
    ensures obj.FormData? || Nullish(obj) ==> r == []
  {
    if Truthy(obj) && !IsArray(obj) && OwnKeyCount(obj) > 0 then
      [SetCookie(name, obj, isLocal, options)]
    else
      []
  }
}
