/** The cookies a response sets in the browser, keyed by cookie name. */
module Cookies {

  datatype SameSite = SameSiteNone | SameSiteLax | SameSiteStrict

  datatype CookieOptions = CookieOptions(httpOnly: bool, secure: bool, sameSite: SameSite, path: string)

  /** A cookie directive: its value, its attributes, and whether it is already expired. */
  datatype Cookie = Cookie(value: string, options: CookieOptions, expired: bool)

  type Jar = map<string, Cookie>

  const ADMIN_COOKIE := "adminToken"
  const PATIENT_COOKIE := "patientToken"

  /** The attributes both logout handlers clear their cookie with. */
  const SESSION_OPTIONS := CookieOptions(httpOnly := true, secure := true, sameSite := SameSiteNone, path := "/")

  /** Clearing a cookie: it becomes an empty, expired cookie with the given attributes; no other cookie changes. */
  function ClearCookie(jar: Jar, name: string, options: CookieOptions): (r: Jar)
    ensures name in r && r[name] == Cookie("", options, true)
    ensures r.Keys == jar.Keys + {name}
    ensures forall n :: n in jar && n != name ==> r[n] == jar[n]
  {
    jar[name := Cookie("", options, true)]
  }
}
