/**
  The short-link table: a dictionary from short code to target URL, read
  with JavaScript truthiness. A field or entry holding "" is falsy, exactly
  as an absent one.
*/
module LinkTable {
  import opened Wrappers
  import opened Http
  import Hex

  type LinkMap = map<string, string>

  /** JavaScript truthiness of an optional string field. */
  predicate Truthy(s: Option<string>) {
    s.Some? && s.value != ""
  }

  /** `links[code]` is truthy, reading the table's own entries only. */
  predicate HasLink(links: LinkMap, code: string) {
    code in links && links[code] != ""
  }

  /**
    The GET lookup: 404 without a truthy entry; otherwise a redirect to the
    stored URL, which `writeHead` refuses, throwing, when the URL is not a
    valid header value.
  */
  function Lookup(links: LinkMap, code: string): (r: Response)
    ensures r.Redirect? || r == NotFound || r == Crashed
    ensures r == NotFound <==> !HasLink(links, code)
    ensures r.Redirect? <==> HasLink(links, code) && HeaderSafe(links[code])
    ensures r == Crashed <==> HasLink(links, code) && !HeaderSafe(links[code])
    ensures r.Redirect? ==> r.location == links[code] && r.location != ""
  {
    if !HasLink(links, code) then NotFound
    else if HeaderSafe(links[code]) then Redirect(links[code])
    else Crashed
  }

  /** `shortCode || randomBytes(4).toString("hex")`, the random bytes given. */
  function ChooseCode(shortCode: Option<string>, random: seq<Hex.byte>): (code: string)
    requires |random| == 4
    ensures Truthy(shortCode) ==> code == shortCode.value
    ensures !Truthy(shortCode) ==> code == Hex.HexEncode(random)
    ensures !Truthy(shortCode) ==> |code| == 8 && forall i :: 0 <= i < |code| ==> Hex.IsHexDigit(code[i])
    ensures code != ""
  {
    if Truthy(shortCode) then shortCode.value else Hex.HexEncode(random)
  }

  /** Two different draws of random bytes never generate the same code. */
  lemma GeneratedCodesDistinct(a: seq<Hex.byte>, b: seq<Hex.byte>)
    requires |a| == 4 && |b| == 4 && a != b
    ensures ChooseCode(None, a) != ChooseCode(None, b)
  {
    if ChooseCode(None, a) == ChooseCode(None, b) {
      Hex.EncodeInjective(a, b);
    }
  }

  /**
    A generated code is never "links" or "style.css", so it always reaches
    the lookup through its own path.
  */
  lemma GeneratedCodeNotReserved(shortCode: Option<string>, random: seq<Hex.byte>)
    requires |random| == 4 && !Truthy(shortCode)
    ensures ChooseCode(shortCode, random) != "links"
    ensures ChooseCode(shortCode, random) != "style.css"
  {
  }

  /** What the shorten handler does with a parsed body and the table it loaded. */
  datatype Decision = Reject(response: Response) | Insert(code: string, url: string)

  function Decide(links: LinkMap, body: Body, random: seq<Hex.byte>): (d: Decision)
    requires |random| == 4
    ensures !body.Fields? <==> d == Reject(InternalError)
    ensures body.Fields? && !Truthy(body.url) <==> d == Reject(BadRequest(UrlRequired))
    ensures d == Reject(BadRequest(CodeTaken))
        <==> body.Fields? && Truthy(body.url) && HasLink(links, ChooseCode(body.shortCode, random))
    ensures d.Insert? <==> body.Fields? && Truthy(body.url) && !HasLink(links, ChooseCode(body.shortCode, random))
    ensures d.Insert? ==> Some(d.url) == body.url && d.url != ""
    ensures d.Insert? ==> d.code == ChooseCode(body.shortCode, random) && !HasLink(links, d.code)
  {
    match body
    case Unparsable => Reject(InternalError)
    case NullDocument => Reject(InternalError)
    case Fields(url, shortCode) =>
      if !Truthy(url) then Reject(BadRequest(UrlRequired))
      else
        var code := ChooseCode(shortCode, random);
        if HasLink(links, code) then Reject(BadRequest(CodeTaken))
        else Insert(code, url.value)
  }

  /** A custom code the table does not hold is always accepted, whatever its spelling. */
  lemma FreshCodeAccepted(links: LinkMap, url: string, code: string, random: seq<Hex.byte>)
    requires |random| == 4 && url != "" && code != "" && code !in links
    ensures Decide(links, Fields(Some(url), Some(code)), random) == Insert(code, url)
  {
  }

  // ---------------------------------------------------------------------
  // As written, `links[code]` is a property read on a plain object, so it
  // also finds the members every object inherits from Object.prototype.

  const InheritedNames: set<string> := {
    "constructor", "hasOwnProperty", "isPrototypeOf", "propertyIsEnumerable",
    "toLocaleString", "toString", "valueOf", "__proto__",
    "__defineGetter__", "__defineSetter__", "__lookupGetter__", "__lookupSetter__"
  }

  /** Truthiness of `links[code]` as JavaScript evaluates it: own entry first, else an inherited member (all truthy). */
  predicate HasLinkAsWritten(links: LinkMap, code: string) {
    if code in links then links[code] != "" else code in InheritedNames
  }

  /** The shorten decision with the collision test as written. */
  function DecideAsWritten(links: LinkMap, body: Body, random: seq<Hex.byte>): (d: Decision)
    requires |random| == 4
    ensures d.Insert? ==> d == Decide(links, body, random)
    ensures body.Fields? && Truthy(body.url) && HasLinkAsWritten(links, ChooseCode(body.shortCode, random))
        ==> d == Reject(BadRequest(CodeTaken))
    ensures !(body.Fields? && Truthy(body.url) && HasLinkAsWritten(links, ChooseCode(body.shortCode, random)))
        ==> d == Decide(links, body, random)
  {
    match body
    case Fields(url, shortCode) =>
      if Truthy(url) && HasLinkAsWritten(links, ChooseCode(shortCode, random)) then Reject(BadRequest(CodeTaken))
      else Decide(links, body, random)
    case _ => Decide(links, body, random)
  }

  /**
    The GET lookup with the property read as written. When it hits an
    inherited member, the Location header carries that member's text, which
    is not modelled: it is the parameter `inheritedLocation`.
  */
  function LookupAsWritten(links: LinkMap, code: string, inheritedLocation: string): (r: Response)
    ensures code in links ==> r == Lookup(links, code)
    ensures code !in links ==> (r.Redirect? <==> HasLinkAsWritten(links, code))
    ensures code !in links ==> r.Redirect? || r == NotFound
    ensures r.Redirect? && code !in links ==> r.location == inheritedLocation
  {
    if code in links then Lookup(links, code)
    else if code in InheritedNames then Redirect(inheritedLocation)
    else NotFound
  }

  /**
    As written, the custom code "constructor" is reported as taken in an empty
    table, and the GET lookup of "toString" redirects in an empty table;
    the corrected definitions accept the first and answer 404 to the second.
  */
  lemma InheritedNamesCollide(random: seq<Hex.byte>, inheritedLocation: string)
    requires |random| == 4
    ensures DecideAsWritten(map[], Fields(Some("https://example.com"), Some("constructor")), random)
         == Reject(BadRequest(CodeTaken))
    ensures Decide(map[], Fields(Some("https://example.com"), Some("constructor")), random)
         == Insert("constructor", "https://example.com")
    ensures LookupAsWritten(map[], "toString", inheritedLocation) == Redirect(inheritedLocation)
    ensures Lookup(map[], "toString") == NotFound
  {
  }
}
