# URL shortener: the short-link table in Dafny

This project models the core of a small Node.js URL shortener (`app.js`). The
service keeps a table from short code to target URL in a JSON file. On each
request it loads that table afresh. `POST /shorten` adds an entry, either under
a custom code or under eight hex digits drawn from four random bytes.
`GET /<code>` redirects to the stored URL. The handler tries its branches in a
fixed order.

Modules:

- `Wrappers` (wrappers.dfy): `Option`.
- `Hex` (hex.dfy): `Buffer.toString("hex")` on bytes. `HexDecode` is the
  inverse that proves the encoding is injective.
- `Http` (http.dfy): requests, parsed bodies, responses, and the ordered
  dispatch `RouteOf`.
- `LinkTable` (link_table.dfy): JavaScript truthiness, the redirect lookup,
  the choice of code, and the shorten decision (validate, choose, collision
  check). It also holds the as-written collision test of the finding below.
- `Store` (store.dfy): the backing file `data/links.json`, and what
  `loadLinks` and `saveLinks` do to it.
- `Server` (server.dfy): `Serve`, which specifies one request as
  (file, request) -> (new file, response). `LinkStore` is the handler as a
  class whose only field is the file. Each method is proved against the
  function that specifies it: `LoadLinks` against `Loaded` and `AfterLoad`,
  `SaveLinks` against `AfterSave`, `HandleShorten` against `ShortenExchange`,
  `HandleLookup` against `Lookup`, and `Handle` against `Serve`. The file also
  holds the lemmas that relate several requests.

The source reads the table into a fresh object for each request. So the only
state that outlives a request is the file. The shorten branch inserts into its
copy in place (`links[code] = url`). That copy is a local map variable that the
method reassigns.

The redirect is sent with `writeHead(302, { Location: url })`. Node refuses
a header value that has a character other than a tab, printable ASCII or
U+0080..U+00FF, and throws. The shorten branch accepts any non-empty URL, so a
URL such as `https://例.jp` is stored, but following its code throws outside any
`try`. The model answers such a lookup with `Crashed`: no response is sent, and
under Node's default settings the unhandled rejection ends the process.

Truthiness follows the source. A missing field and `""` are both falsy. A table
entry that holds `""` counts as absent, so a shorten may write over it.

## Model

| member | source | states |
|---|---|---|
| `Hex.HexEncode` | app.js:88 | the hex text of n bytes has 2n characters, each in `[0-9a-f]` |
| `Hex.DecodeEncode` | app.js:88 | decoding the hex text gives back exactly the bytes: the encoding loses nothing |
| `Hex.EncodeInjective` | app.js:88 | two byte strings with the same hex text are equal |
| `Http.DropFirst` | app.js:65 | `slice(1)`: the first character followed by the result gives back the path; "" gives "" |
| `Http.RouteOf` | app.js:49-75 | HEAD is taken for every path. GET `/` serves the index page and GET `/style.css` the stylesheet. GET `/links` lists the table. Any GET path other than `/`, `/style.css` and `/links` goes to the lookup with its first character dropped. Only POST `/shorten` shortens. Every other request is unrouted. Each of these is stated as an iff. |
| `Http.ResolvesExactly` | app.js:55-65 | `GET "/" + c` reaches the lookup for `c` exactly when `c` is not "", "style.css" or "links"; other verbs never reach it |
| `Http.ReservedCodesNeverResolve` | app.js:57-65 | no path that starts with `/` looks up the codes "links" or "style.css" |
| `LinkTable.Lookup` | app.js:64-71 | 404 exactly when the code holds no non-empty URL; 302 to the stored URL exactly when that URL is a valid header value; otherwise `writeHead` throws and the handler crashes |
| `LinkTable.ChooseCode` | app.js:88 | a truthy custom code is used as given; otherwise the code is the hex text of the four random bytes, 8 lower-case hex digits; it is never empty |
| `LinkTable.GeneratedCodesDistinct` | app.js:88 | different random bytes never generate the same code |
| `LinkTable.GeneratedCodeNotReserved` | app.js:57-59 | a generated code is never "links" or "style.css" |
| `LinkTable.Decide` | app.js:80-95 | 500 exactly for a body that fails to parse or is `null`; 400 "URL is required" exactly for a falsy url; 400 "Short code already exists" exactly when the chosen code holds a truthy URL; otherwise it inserts the chosen code with the given non-empty URL, never over a truthy entry |
| `LinkTable.FreshCodeAccepted` | app.js:88-95 | a non-empty custom code absent from the table is accepted with its URL |
| `LinkTable.DecideAsWritten` | app.js:90-93 | the collision test as JavaScript runs it: an inherited `Object.prototype` name is reported as taken; in every other case the result equals `Decide` |
| `LinkTable.LookupAsWritten` | app.js:66-67 | the GET lookup as JavaScript runs it: on an own entry it equals `Lookup` (404, a redirect, or a crash); with no own entry it redirects exactly when the code is an inherited `Object.prototype` name, and otherwise gives 404 |
| `LinkTable.InheritedNamesCollide` | app.js:66 | as written, "constructor" is refused on an empty table and GET of "toString" redirects on it; the corrected definitions accept the first and give 404 for the second |
| `Store.LoadWritesOnlyMissing` | app.js:22-33 | loading writes the file only when it is missing (ENOENT), and then writes the empty table; every other failure leaves it alone |
| `Store.LoadSettles` | app.js:22-33 | a second load sees the same table and writes nothing |
| `Store.Loaded` | app.js:22-33 | a non-empty loaded table only ever comes from a stored JSON object, and a stored object is loaded as it is; every failure gives `{}` |
| `Store.AfterLoad` | app.js:22-33 | after a load the file is never missing; the file changes only when it was missing, and then holds `{}`; the loaded table is the same before and after |
| `Store.AfterSave` | app.js:36-43 | a successful save leaves the file holding exactly the table, so the next load returns it; a failed one leaves the file as it was |
| `Store.SaveThenLoad` | app.js:36-43 | durability: after a successful save, the next load returns exactly the saved table |
| `Server.LinkStore.LoadLinks` | app.js:22-34 | returns the stored table, or `{}` when the file is missing, unreadable, malformed or falsy; creates only a missing file |
| `Server.LinkStore.SaveLinks` | app.js:36-43 | overwrites the file with the whole table; a failed write is swallowed and leaves the file alone |
| `Server.ShortenExchange` | app.js:75-105 | a shorten answers 500, one of the two 400s, or 200 with a code. Anything but 200 leaves the file as the load left it. A saved 200 leaves the table with the code mapped to the body's url, and an unsaved one leaves the file as the load left it. |
| `Server.Serve` | app.js:45-107 | one request: HEAD changes nothing and answers 200 empty. No route but POST `/shorten` changes the loaded table; at most the load creates a missing file. Only the lookup can crash. |
| `Server.LinkStore.HandleShorten` | app.js:75-105 | loads, validates, chooses the code, refuses a taken one, inserts in place and saves; its response and new file are those of `ShortenExchange` |
| `Server.LinkStore.HandleLookup` | app.js:63-72 | loads the table and answers with `Lookup` of the path without its first character: 404, 302, or a crash for a URL `writeHead` refuses |
| `Server.LinkStore.Handle` | app.js:45-107 | the whole handler; its response and new file are those of `Serve` |
| `Server.HeadAnswersFirst` | app.js:49-52 | HEAD gives 200 with an empty body on every path and never reads or writes the file |
| `Server.UnroutedGetsNoReply` | app.js:54-106 | a POST to a path other than `/shorten`, or any other verb, gets no response and changes nothing |
| `Server.ListLinksShowsTable` | app.js:59-62 | GET `/links` answers with the whole loaded table |
| `Server.RejectedShortenKeepsTable` | app.js:81-93 | a shorten not answered 200 saves nothing: the table is unchanged (a missing file is still created by the load) |
| `Server.ShortenResponses` | app.js:80-104 | the response of POST `/shorten` in each case: 500, 400 "URL is required", 400 "Short code already exists", or 200 with the chosen code |
| `Server.ShortenAddsExactlyOne` | app.js:95-99 | after a saved success the table gains exactly code -> url, keeps every other entry, and grows by one unless the code held a falsy entry |
| `Server.WriteErrorInvisible` | app.js:40-42 | a failed write of the table never changes any response |
| `Server.ShortenThenRedirect` | app.js:64-67 | round trip: after a saved shorten with code c, where c is not "links" or "style.css", a GET whose raw request target is `"/" + c` redirects to the stored URL when it is a valid header value, and crashes the handler otherwise |
| `Server.GeneratedCodeRedirects` | app.js:88 | for a generated code, a GET whose raw request target is `"/" + code` always reaches the lookup: it redirects to the stored URL when that is a valid header value, and crashes otherwise |
| `Server.NonLatinUrlAcceptedThenCrashes` | app.js:67 | the URL `https://例.jp` is accepted with code "c" (app.js:83-95), and GET `/c` then crashes the handler instead of redirecting |
| `Server.SecondShortenOfCodeRefused` | app.js:90-93 | once a code is saved, shortening it again gives 400 and leaves the table unchanged |
| `Server.ShortenAndFollow` | app.js:75-99 | a client that shortens an unused custom code, then sends a GET whose raw request target is `"/" + code`, gets 200 with that code and then a redirect to the URL, or a crash when the URL is not a valid header value |

## Findings

| source | as written | input that shows it | evidently intended | confidence | as-written member | corrected member |
|---|---|---|---|---|---|---|
| app.js:66, app.js:90 | `links[code]` is a property read on a plain object, so it also finds the members every object inherits from `Object.prototype` (`constructor`, `toString`, `__proto__`, ...) | POST `/shorten` with `{"url":"https://example.com","shortCode":"constructor"}` on an empty table answers 400 "Short code already exists"; GET `/toString` on an empty table is not a 404 | a code is taken, or found, only when the table itself holds it | high; not executed | `LinkTable.DecideAsWritten`, `LinkTable.LookupAsWritten`, `LinkTable.InheritedNamesCollide` | `LinkTable.Decide`, `LinkTable.Lookup`, `LinkTable.FreshCodeAccepted` |

The rest of the model (`Lookup`, `Decide`, `Serve`, `LinkStore`) uses the
corrected own-entry test `HasLink`. The as-written test is `HasLinkAsWritten`,
used by `DecideAsWritten` and `LookupAsWritten`.

## Left out

- HTTP plumbing (`createServer`, `writeHead`, `end`, `listen`) and logging: responses are the `Response` datatype. Of `writeHead`'s own checks, only the one on the Location value is modelled (`HeaderSafe`). That check is reached only for a stored URL.
- `serveFile` and the static assets (app.js:11-20): GET `/` and `/style.css` answer `StaticAsset`. Whether the file exists (200 or 404) is not modelled.
- Streaming the request body (app.js:77-79), and JSON parsing and printing: a body is given already parsed as `Body`. A stored file is given already parsed as `Document`. Saving and then loading is assumed to give back the same table, because the JSON round trip of a string map is taken as given.
- Non-string JSON values: `url` and `shortCode` are strings or absent. A JSON number, boolean or object in these fields, or in the stored table, is not modelled. A top-level JSON value other than an object or `null` destructures to absent fields, `Fields(None, None)`. A stored document that is truthy but not a plain JSON object, arrays included, is not modelled.
- Randomness: the four bytes from `crypto.randomBytes(4)` are a parameter.
- A failed write inside `loadLinks` when the file is missing (app.js:28): the rejection is unhandled: no response is sent and, with Node's default settings, the process exits. The same happens at startup (app.js:111) when the `data` directory is missing. The model takes that write as succeeding.
- A failed write in `saveLinks` leaves the file as it was. A partial or truncated write is not modelled.
- Concurrency: the load at app.js:76 happens before the body arrives, so concurrent shortens can lose updates. Requests are modelled one at a time.
- The value of the `Location` header when the as-written lookup hits an inherited member: `LookupAsWritten` takes it as a parameter.
- Request paths are the raw request target, as app.js:65 uses it. It is not percent-decoded, and any query string is kept. So a code that needs escaping in a URL ("a b", "café") is stored but is looked up as its escaped form, and a followed link with `?x=1` is looked up with the query. The round-trip lemmas speak only of a target that is exactly `"/" + code`.
