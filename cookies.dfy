/** The request's cookie jar: the cookies the browser sent and the Set-Cookie directives of the response. */
module Cookies {
  import opened Wrappers
  import opened JsString

  datatype SameSite = Lax

  /** Options of `cookies.set`; `secure` None leaves the framework's default. */
  datatype CookieOptions = CookieOptions(
    path: String, httpOnly: bool, sameSite: SameSite, maxAge: int, secure: Option<bool>)

  datatype Directive =
    | SetTo(value: String, options: CookieOptions)
    | Deleted(path: String)

  class CookieJar {
    const incoming: map<String, String>
    var outgoing: map<String, Directive>

    constructor (incoming: map<String, String>)
      ensures this.incoming == incoming && outgoing == map[]
    {
      this.incoming := incoming;
      outgoing := map[];
    }

    /** `cookies.get(name)`: the value the browser sent. */
    function Get(name: String): (r: Option<String>)
      ensures r.Some? <==> name in incoming
      ensures r.Some? ==> r.value == incoming[name]
    {
      if name in incoming then Some(incoming[name]) else None
    }

    method Set(name: String, value: String, options: CookieOptions)
      modifies this
      ensures outgoing == old(outgoing)[name := SetTo(value, options)]
    {
      outgoing := outgoing[name := SetTo(value, options)];
    }

    method Delete(name: String, path: String)
      modifies this
      ensures outgoing == old(outgoing)[name := Deleted(path)]
    {
      outgoing := outgoing[name := Deleted(path)];
    }
  }
}
