/**
  The request and response shapes of the shortener's HTTP handler, and the
  fixed, ordered dispatch that decides which branch a request reaches.
*/
module Http {
  import opened Wrappers

  /** What `JSON.parse` of a POST body yields once destructured into `{ url, shortCode }`. */
  datatype Body =
    | Unparsable                                      // JSON.parse throws
    | NullDocument                                    // `null`: destructuring it throws
    | Fields(url: Option<string>, shortCode: Option<string>)

  datatype Request = Request(verb: string, url: string, body: Body)

  const UrlRequired: string := "URL is required"
  const CodeTaken: string := "Short code already exists. Please choose another"

  datatype Response =
    | Empty                                  // 200, no body (HEAD)
    | StaticAsset(name: string)              // a file from public/, served elsewhere
    | LinksJson(links: map<string, string>)  // 200, the whole table as JSON
    | Redirect(location: string)             // 302 with a Location header
    | NotFound                               // 404 "Shortened URL not found"
    | BadRequest(message: string)            // 400 with a plain-text message
    | Shortened(shortCode: string)           // 200 {success: true, shortCode}
    | InternalError                          // 500 "Internal Server Error"
    | NoReply                                // no branch answers the request
    | Crashed                                // the handler throws outside any try: no answer, and
                                             // the unhandled rejection ends the process

  /**
    Node accepts a header value only when every character is a tab, printable
    ASCII or in U+0080..U+00FF; `writeHead` throws on any other value.
  */
  predicate HeaderSafe(value: string) {
    forall i :: 0 <= i < |value| ==>
      value[i] == '\t' || ' ' <= value[i] <= '~' || '\U{80}' <= value[i] <= '\U{FF}'
  }

  datatype Route =
    | HeadProbe
    | IndexPage
    | StyleSheet
    | ListLinks
    | Resolve(code: string)
    | ShortenLink
    | Unrouted

  /** `s.slice(1)`: everything after the first character, "" for "". */
  function DropFirst(s: string): (r: string)
    ensures s != [] ==> [s[0]] + r == s
    ensures s == [] ==> r == []
  {
    if s == [] then [] else s[1..]
  }

  function RouteOf(verb: string, url: string): (r: Route)
    ensures r == HeadProbe <==> verb == "HEAD"
    ensures r == IndexPage <==> verb == "GET" && url == "/"
    ensures r == StyleSheet <==> verb == "GET" && url == "/style.css"
    ensures r == ListLinks <==> verb == "GET" && url == "/links"
    ensures r.Resolve? <==> verb == "GET" && url != "/" && url != "/style.css" && url != "/links"
    ensures r.Resolve? ==> r.code == DropFirst(url)
    ensures r == ShortenLink <==> verb == "POST" && url == "/shorten"
    ensures r == Unrouted <==> verb != "HEAD" && verb != "GET" && !(verb == "POST" && url == "/shorten")
  {
    if verb == "HEAD" then HeadProbe
    else if verb == "GET" then
      if url == "/" then IndexPage
      else if url == "/style.css" then StyleSheet
      else if url == "/links" then ListLinks
      else Resolve(DropFirst(url))
    else if verb == "POST" && url == "/shorten" then ShortenLink
    else Unrouted
  }

  /**
    A code reaches the lookup through its own path `"/" + code` exactly when
    the request is a GET and the code is none of "", "style.css" and "links":
    those three paths are taken by earlier branches.
  */
  lemma ResolvesExactly(verb: string, code: string)
    ensures RouteOf(verb, "/" + code) == Resolve(code)
        <==> verb == "GET" && code != "" && code != "style.css" && code != "links"
  {
    var url := "/" + code;
    assert DropFirst(url) == code;
    if code == "style.css" { assert url == "/style.css"; }
    if code == "links" { assert url == "/links"; }
    if url == "/style.css" { assert code == url[1..] == "style.css"; }
    if url == "/links" { assert code == url[1..] == "links"; }
  }

  /** No GET path whatever resolves the codes "links" or "style.css" when it starts with "/". */
  lemma ReservedCodesNeverResolve(verb: string, url: string)
    requires url != [] && url[0] == '/'
    ensures RouteOf(verb, url) != Resolve("links")
    ensures RouteOf(verb, url) != Resolve("style.css")
  {
  }
}
