/**
  The request handler: its specification as a function from the backing file
  and one request to the new file and the response, the handler itself as a
  class that owns the file, and what a client can rely on across requests.
*/
module Server {
  import opened Wrappers
  import opened Http
  import opened LinkTable
  import opened Store
  import Hex

  datatype Exchange = Exchange(file: FileState, response: Response)

  /** One POST /shorten: load the table, decide, and on success insert and save. */
  function ShortenExchange(f: FileState, body: Body, random: seq<Hex.byte>, writeOk: bool): (out: Exchange)
    requires |random| == 4
    ensures out.response in {InternalError, BadRequest(UrlRequired), BadRequest(CodeTaken)} || out.response.Shortened?
    ensures !out.response.Shortened? ==> out.file == AfterLoad(f)
    ensures out.response.Shortened? ==> body.Fields? && body.url.Some?
    ensures out.response.Shortened? && writeOk ==> Loaded(out.file) == Loaded(f)[out.response.shortCode := body.url.value]
    ensures out.response.Shortened? && !writeOk ==> out.file == AfterLoad(f)
  {
    var links := Loaded(f);
    match Decide(links, body, random)
    case Reject(response) => Exchange(AfterLoad(f), response)
    case Insert(code, url) => Exchange(AfterSave(AfterLoad(f), links[code := url], writeOk), Shortened(code))
  }

  /** One request, dispatched in the handler's fixed order. */
  function Serve(f: FileState, req: Request, random: seq<Hex.byte>, writeOk: bool): (out: Exchange)
    requires |random| == 4
    ensures req.verb == "HEAD" ==> out == Exchange(f, Empty)
    ensures RouteOf(req.verb, req.url) != ShortenLink ==> out.file == f || out.file == AfterLoad(f)
    ensures RouteOf(req.verb, req.url) != ShortenLink ==> Loaded(out.file) == Loaded(f)
    ensures out.response == Crashed ==> RouteOf(req.verb, req.url).Resolve?
  {
    match RouteOf(req.verb, req.url)
    case HeadProbe => Exchange(f, Empty)
    case IndexPage => Exchange(f, StaticAsset("index.html"))
    case StyleSheet => Exchange(f, StaticAsset("style.css"))
    case ListLinks => Exchange(AfterLoad(f), LinksJson(Loaded(f)))
    case Resolve(code) => Exchange(AfterLoad(f), Lookup(Loaded(f), code))
    case ShortenLink => ShortenExchange(f, req.body, random, writeOk)
    case Unrouted => Exchange(f, NoReply)
  }

  /** The handler. Every request loads the table afresh; the file is the only state that outlives it. */
  class LinkStore {
    var file: FileState

    constructor (initial: FileState)
      ensures file == initial
    {
      file := initial;
    }

    method LoadLinks() returns (links: LinkMap)
      modifies this
      ensures links == Loaded(old(file))
      ensures file == AfterLoad(old(file))
    {
      match file
      case Missing =>
        file := Stored(Table(map[]));
        links := map[];
      case Unreadable =>
        links := map[];
      case Stored(doc) =>
        links := if doc.Table? then doc.links else map[];
    }

    method SaveLinks(links: LinkMap, writeOk: bool)
      modifies this
      ensures file == AfterSave(old(file), links, writeOk)
    {
      if writeOk {
        file := Stored(Table(links));
      }
    }

    method HandleShorten(body: Body, random: seq<Hex.byte>, writeOk: bool) returns (response: Response)
      requires |random| == 4
      modifies this
      ensures Exchange(file, response) == ShortenExchange(old(file), body, random, writeOk)
    {
      var links := LoadLinks();
      match body
      case Unparsable =>
        response := InternalError;
      case NullDocument =>
        response := InternalError;
      case Fields(url, shortCode) =>
        if !Truthy(url) {
          return BadRequest(UrlRequired);
        }
        var code := ChooseCode(shortCode, random);
        if HasLink(links, code) {
          return BadRequest(CodeTaken);
        }
        links := links[code := url.value];
        SaveLinks(links, writeOk);
        response := Shortened(code);
    }

    method HandleLookup(url: string) returns (response: Response)
      modifies this
      ensures response == Lookup(Loaded(old(file)), DropFirst(url))
      ensures file == AfterLoad(old(file))
    {
      var links := LoadLinks();
      var code := DropFirst(url);
      if !HasLink(links, code) {
        response := NotFound;
      } else if HeaderSafe(links[code]) {
        response := Redirect(links[code]);
      } else {
        response := Crashed;
      }
    }

    method Handle(req: Request, random: seq<Hex.byte>, writeOk: bool) returns (response: Response)
      requires |random| == 4
      modifies this
      ensures Exchange(file, response) == Serve(old(file), req, random, writeOk)
    {
      if req.verb == "HEAD" {
        return Empty;
      }
      if req.verb == "GET" {
        if req.url == "/" {
          response := StaticAsset("index.html");
        } else if req.url == "/style.css" {
          response := StaticAsset("style.css");
        } else if req.url == "/links" {
          var links := LoadLinks();
          response := LinksJson(links);
        } else {
          response := HandleLookup(req.url);
        }
        return;
      }
      if req.verb == "POST" && req.url == "/shorten" {
        response := HandleShorten(req.body, random, writeOk);
        return;
      }
      response := NoReply;
    }
  }

  // ---------------------------------------------------------------------
  // Properties of the handler across all files and requests.

  /** HEAD is answered 200 with an empty body on every path, before anything reads the file. */
  lemma HeadAnswersFirst(f: FileState, url: string, body: Body, random: seq<Hex.byte>, writeOk: bool)
    requires |random| == 4
    ensures Serve(f, Request("HEAD", url, body), random, writeOk) == Exchange(f, Empty)
  {
  }

  /** A POST elsewhere than /shorten, or any other verb, gets no answer and leaves the file alone. */
  lemma UnroutedGetsNoReply(f: FileState, req: Request, random: seq<Hex.byte>, writeOk: bool)
    requires |random| == 4
    requires req.verb != "HEAD" && req.verb != "GET" && !(req.verb == "POST" && req.url == "/shorten")
    ensures Serve(f, req, random, writeOk) == Exchange(f, NoReply)
  {
  }

  /** GET /links answers with the whole loaded table. */
  lemma ListLinksShowsTable(f: FileState, body: Body, random: seq<Hex.byte>, writeOk: bool)
    requires |random| == 4
    ensures Serve(f, Request("GET", "/links", body), random, writeOk) == Exchange(AfterLoad(f), LinksJson(Loaded(f)))
  {
  }

  /** A shorten that is not answered 200 leaves the table as it was (a missing file is still created by the load). */
  lemma RejectedShortenKeepsTable(f: FileState, body: Body, random: seq<Hex.byte>, writeOk: bool)
    requires |random| == 4
    ensures var out := ShortenExchange(f, body, random, writeOk);
      !out.response.Shortened? ==> out.file == AfterLoad(f) && Loaded(out.file) == Loaded(f)
  {
  }

  /** The answers of POST /shorten, by case: 500, 400 for a falsy url, 400 for a taken code, else 200 with the chosen code. */
  lemma ShortenResponses(f: FileState, body: Body, random: seq<Hex.byte>, writeOk: bool)
    requires |random| == 4
    ensures var r := ShortenExchange(f, body, random, writeOk).response;
      && (!body.Fields? ==> r == InternalError)
      && (body.Fields? && !Truthy(body.url) ==> r == BadRequest(UrlRequired))
      && (body.Fields? && Truthy(body.url) && HasLink(Loaded(f), ChooseCode(body.shortCode, random))
          ==> r == BadRequest(CodeTaken))
      && (body.Fields? && Truthy(body.url) && !HasLink(Loaded(f), ChooseCode(body.shortCode, random))
          ==> r == Shortened(ChooseCode(body.shortCode, random)))
  {
  }

  /** A successful shorten gains exactly code -> url in the saved table; every other entry is kept. */
  lemma ShortenAddsExactlyOne(f: FileState, body: Body, random: seq<Hex.byte>, code: string)
    requires |random| == 4
    requires ShortenExchange(f, body, random, true).response == Shortened(code)
    ensures var after := Loaded(ShortenExchange(f, body, random, true).file);
      && body.Fields? && body.url.Some?
      && after.Keys == Loaded(f).Keys + {code}
      && after[code] == body.url.value
      && (forall k :: k in Loaded(f) && k != code ==> after[k] == Loaded(f)[k])
      && |after| == |Loaded(f)| + (if code in Loaded(f) then 0 else 1)
  {
  }

  /** A swallowed write error does not change the response to any request. */
  lemma WriteErrorInvisible(f: FileState, req: Request, random: seq<Hex.byte>)
    requires |random| == 4
    ensures Serve(f, req, random, true).response == Serve(f, req, random, false).response
  {
  }

  /**
    Round trip: after a saved shorten with code c, GET "/" + c redirects to the
    URL just stored, unless c is one of the two codes earlier branches take.
    A URL that is not a valid header value is stored all the same, and
    following it crashes the handler.
  */
  lemma ShortenThenRedirect(f: FileState, body: Body, random: seq<Hex.byte>, code: string,
                            later: Body, random': seq<Hex.byte>, writeOk': bool)
    requires |random| == 4 && |random'| == 4
    requires ShortenExchange(f, body, random, true).response == Shortened(code)
    requires code != "links" && code != "style.css"
    ensures var f' := ShortenExchange(f, body, random, true).file;
      Serve(f', Request("GET", "/" + code, later), random', writeOk').response
        == if HeaderSafe(body.url.value) then Redirect(body.url.value) else Crashed
  {
    ShortenAddsExactlyOne(f, body, random, code);
    ResolvesExactly("GET", code);
  }

  /** A generated code is always reachable: the round trip holds with no exception on the code. */
  lemma GeneratedCodeRedirects(f: FileState, url: string, random: seq<Hex.byte>, code: string,
                               later: Body, random': seq<Hex.byte>, writeOk': bool)
    requires |random| == 4 && |random'| == 4
    requires ShortenExchange(f, Fields(Some(url), None), random, true).response == Shortened(code)
    ensures var f' := ShortenExchange(f, Fields(Some(url), None), random, true).file;
      Serve(f', Request("GET", "/" + code, later), random', writeOk').response
        == if HeaderSafe(url) then Redirect(url) else Crashed
  {
    GeneratedCodeNotReserved(None, random);
    ShortenThenRedirect(f, Fields(Some(url), None), random, code, later, random', writeOk');
  }

  /** Once a code is saved, shortening it again is refused and the table stays as it is. */
  lemma SecondShortenOfCodeRefused(f: FileState, url: string, code: string, random: seq<Hex.byte>,
                                   url': string, random': seq<Hex.byte>, writeOk': bool)
    requires |random| == 4 && |random'| == 4
    requires ShortenExchange(f, Fields(Some(url), Some(code)), random, true).response == Shortened(code)
    ensures var f' := ShortenExchange(f, Fields(Some(url), Some(code)), random, true).file;
      var again := ShortenExchange(f', Fields(Some(url'), Some(code)), random', writeOk');
      url' != "" ==> again.response == BadRequest(CodeTaken) && Loaded(again.file) == Loaded(f')
  {
  }

  /**
    A URL with a character outside Latin-1 is accepted, and following its
    code then crashes the handler instead of redirecting.
  */
  lemma NonLatinUrlAcceptedThenCrashes(random: seq<Hex.byte>)
    requires |random| == 4
    ensures var url := "https://\U{4F8B}.jp";
      var saved := ShortenExchange(Stored(Table(map[])), Fields(Some(url), Some("c")), random, true);
      && saved.response == Shortened("c")
      && Serve(saved.file, Request("GET", "/c", Unparsable), random, true).response == Crashed
  {
    var url := "https://\U{4F8B}.jp";
    assert !HeaderSafe(url) by { assert url[8] == '\U{4F8B}'; }
  }

  /** A client's view: shorten with a custom code, then follow it. */
  method ShortenAndFollow(store: LinkStore, url: string, code: string, random: seq<Hex.byte>) returns (first: Response, second: Response)
    requires |random| == 4 && url != "" && code != "" && code != "links" && code != "style.css"
    requires !HasLink(Loaded(store.file), code)
    modifies store
    ensures first == Shortened(code)
    ensures second == if HeaderSafe(url) then Redirect(url) else Crashed
  {
    first := store.Handle(Request("POST", "/shorten", Fields(Some(url), Some(code))), random, true);
    ShortenThenRedirect(old(store.file), Fields(Some(url), Some(code)), random, code, Unparsable, random, true);
    second := store.Handle(Request("GET", "/" + code, Unparsable), random, true);
  }
}
