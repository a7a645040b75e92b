/**
 * The in-memory shortener of Backend/server.js: the `POST /shorten` handler,
 * which checks for a URL, gives it an `http://` scheme when it has no
 * `http://`/`https://` one (compared case-insensitively) and stores it under a
 * fresh five-character id, and the `GET /:shortId` handler, which redirects to
 * the stored URL or answers 404. Express itself (routing, status and redirect
 * mechanics) is reduced to the response values the handlers choose.
 */
module Shortener {
  import opened Wrappers

  /** `http://localhost:${port}/`, with the server's port 8080 (Backend/server.js:7) written out. */
  const ShortUrlPrefix := "http://localhost:8080/"

  /** `nanoid(5)`: the length of every generated id. */
  const ShortIdLength: nat := 5

  const MissingUrlMessage := "Missing URL"
  const NotFoundMessage := "URL not found"

  /** A character of nanoid's URL-safe alphabet `A-Za-z0-9_-`. */
  predicate IdChar(c: char) {
    ('A' <= c <= 'Z') || ('a' <= c <= 'z') || ('0' <= c <= '9') || c == '_' || c == '-'
  }

  /** What `nanoid(5)` can return. */
  predicate IsShortId(id: string) {
    |id| == ShortIdLength && forall i :: 0 <= i < |id| ==> IdChar(id[i])
  }

  // ---------------------------------------------------------------------------
  // Scheme normalisation: `if (!/^https?:\/\//i.test(originalUrl)) originalUrl = 'http://' + originalUrl`

  /** The `i` flag without `u` folds only ASCII letters. */
  function LowerAscii(c: char): char {
    if 'A' <= c <= 'Z' then (c as int + 32) as char else c
  }

  /** `s` starts with the lower-case pattern `p`, letters compared without regard to case. */
  predicate StartsWithIgnoringCase(s: string, p: string) {
    |p| <= |s| && forall i :: 0 <= i < |p| ==> LowerAscii(s[i]) == p[i]
  }

  /** `/^https?:\/\//i.test(url)` */
  predicate HasHttpScheme(url: string): (b: bool)
    ensures b ==> StartsWithIgnoringCase(url, "http")
    ensures b ==> |url| >= 7 && (url[4..7] == "://" || (|url| >= 8 && url[5..8] == "://"))
  {
    StartsWithIgnoringCase(url, "http://") || StartsWithIgnoringCase(url, "https://")
  }

  /** The URL the handler stores for the request's `originalUrl`. */
  function Normalize(url: string): (r: string)
    ensures HasHttpScheme(r)
    ensures r == url || r == "http://" + url
  {
    if HasHttpScheme(url) then url else "http://" + url
  }

  /** A URL that already has an `http://` or `https://` scheme, in any case, is left alone. */
  lemma NormalizeFixesSchemedUrls(url: string)
    ensures Normalize(url) == url <==> HasHttpScheme(url)
  {
  }

  /** Normalising twice is normalising once. */
  lemma NormalizeIdempotent(url: string)
    ensures Normalize(Normalize(url)) == Normalize(url)
  {
  }

  /** An upper-case scheme counts as present: `HTTP://...` is stored as it is. */
  lemma {:induction false} NormalizeKeepsUpperCaseScheme(rest: string)
    ensures Normalize("HTTP://" + rest) == "HTTP://" + rest
  {
    var url := "HTTP://" + rest;
    forall i | 0 <= i < 7 ensures LowerAscii(url[i]) == "http://"[i] {
      assert url[i] == "HTTP://"[i];
    }
    assert StartsWithIgnoringCase(url, "http://");
  }

  /** A bare host name is given the `http://` scheme. */
  lemma NormalizeAddsScheme()
    ensures Normalize("example.com") == "http://example.com"
  {
    var url := "example.com";
    assert LowerAscii(url[0]) == 'e';
  }

  // ---------------------------------------------------------------------------
  // Short URLs: `http://localhost:${port}/${shortId}`

  function ShortUrl(id: string): (s: string)
    ensures ShortUrlPrefix <= s && |s| == |ShortUrlPrefix| + |id|
  {
    ShortUrlPrefix + id
  }

  /** The `:shortId` route parameter a GET of a short URL carries. */
  function ShortIdOf(shortUrl: string): Option<string> {
    if ShortUrlPrefix <= shortUrl then Some(shortUrl[|ShortUrlPrefix|..]) else None
  }

  /** Following a returned short URL reaches the id it was built from. */
  lemma {:induction false} ShortUrlRoundTrip(id: string)
    ensures ShortIdOf(ShortUrl(id)) == Some(id)
  {
    assert ShortUrl(id)[|ShortUrlPrefix|..] == id;
  }

  /** Distinct ids give distinct short URLs. */
  lemma {:induction false} ShortUrlInjective(a: string, b: string)
    requires ShortUrl(a) == ShortUrl(b)
    ensures a == b
  {
    ShortUrlRoundTrip(a);
    ShortUrlRoundTrip(b);
  }

  // ---------------------------------------------------------------------------
  // The handlers as transitions of `urlDatabase`

  /** `!originalUrl`: the field is absent, null or the empty string. */
  predicate IsMissing(originalUrl: Option<string>) {
    originalUrl.None? || originalUrl.value == ""
  }

  datatype ShortenResponse = MissingUrl | Shortened(shortUrl: string) {
    function Status(): nat {
      if MissingUrl? then 400 else 200
    }

    /** The text body of a 400; a success answers with JSON `{ shortUrl }` instead. */
    function Body(): string {
      if MissingUrl? then MissingUrlMessage else shortUrl
    }
  }

  datatype ResolveResponse = Redirect(target: string) | NotFound {
    /** Express's `res.redirect(url)` answers 302 Found. */
    function Status(): nat {
      if Redirect? then 302 else 404
    }

    /** The text body of a 404; a redirect carries its target in the Location header. */
    function Body(): string {
      if Redirect? then target else NotFoundMessage
    }
  }

  /** The database state the handlers keep: five-character keys, schemed values. */
  predicate ValidDatabase(db: map<string, string>) {
    forall k | k in db :: IsShortId(k) && HasHttpScheme(db[k])
  }

  /** `POST /shorten` with body field `originalUrl`, when nanoid yields `id`. */
  function ShortenStep(db: map<string, string>, originalUrl: Option<string>, id: string)
    : (r: (map<string, string>, ShortenResponse))
    ensures r.1.MissingUrl? <==> IsMissing(originalUrl)
    ensures r.1.MissingUrl? ==> r.0 == db && r.1.Body() == "Missing URL"
    ensures r.1.Shortened? ==> r.0.Keys == db.Keys + {id} && r.0[id] == Normalize(originalUrl.value)
    ensures r.1.Shortened? ==> forall k :: k in db && k != id ==> r.0[k] == db[k]
    ensures r.1.Shortened? ==> ShortIdOf(r.1.shortUrl) == Some(id)
  {
    ShortUrlRoundTrip(id);
    if IsMissing(originalUrl) then (db, MissingUrl)
    else (db[id := Normalize(originalUrl.value)], Shortened(ShortUrl(id)))
  }

  /** `GET /:shortId`, looking up only the ids the database holds. */
  function Lookup(db: map<string, string>, id: string): (r: ResolveResponse)
    ensures r.NotFound? <==> id !in db
    ensures r.Redirect? ==> r.target == db[id]
  {
    if id in db then Redirect(db[id]) else NotFound
  }

  /** A missing URL is answered with 400 and the database is left as it was. */
  lemma MissingUrlChangesNothing(db: map<string, string>, originalUrl: Option<string>, id: string)
    requires IsMissing(originalUrl)
    ensures ShortenStep(db, originalUrl, id) == (db, MissingUrl)
    ensures MissingUrl.Status() == 400
  {
  }

  /** Resolving the id just shortened redirects to the normalised URL. */
  lemma ShortenThenResolve(db: map<string, string>, url: string, id: string)
    requires url != ""
    ensures Lookup(ShortenStep(db, Some(url), id).0, id) == Redirect(Normalize(url))
  {
  }

  /** Shorten writes key `id` only, overwriting whatever was stored there. */
  lemma ShortenWritesOnlyId(db: map<string, string>, originalUrl: Option<string>, id: string, other: string)
    requires other != id
    ensures Lookup(ShortenStep(db, originalUrl, id).0, other) == Lookup(db, other)
    ensures ShortenStep(db, originalUrl, id).0.Keys <= db.Keys + {id}
  {
  }

  /** The response carries `http://localhost:8080/` followed by the id, and no other id. */
  lemma ShortenResponseNamesId(db: map<string, string>, originalUrl: Option<string>, id: string)
    requires IsShortId(id) && !IsMissing(originalUrl)
    ensures var resp := ShortenStep(db, originalUrl, id).1;
      resp.Shortened? && resp.Status() == 200 && ShortIdOf(resp.shortUrl) == Some(id)
      && |resp.shortUrl| == |ShortUrlPrefix| + 5
  {
    ShortUrlRoundTrip(id);
  }

  /** Shortening keeps the database well formed. */
  lemma ShortenPreservesValid(db: map<string, string>, originalUrl: Option<string>, id: string)
    requires ValidDatabase(db) && IsShortId(id)
    ensures ValidDatabase(ShortenStep(db, originalUrl, id).0)
  {
  }

  /** Every redirect of a well-formed database goes to a URL with an http(s) scheme. */
  lemma RedirectTargetsHaveScheme(db: map<string, string>, id: string)
    requires ValidDatabase(db) && Lookup(db, id).Redirect?
    ensures HasHttpScheme(Lookup(db, id).target)
  {
  }

  // ---------------------------------------------------------------------------
  // The lookup as written: `urlDatabase` is a plain object literal, so
  // `urlDatabase[shortId]` also finds the members it inherits from Object.prototype.

  /** The property names every plain object inherits from Object.prototype. */
  const ObjectPrototypeMembers: set<string> := {
    "constructor", "hasOwnProperty", "isPrototypeOf", "propertyIsEnumerable",
    "toString", "toLocaleString", "valueOf", "__proto__",
    "__defineGetter__", "__defineSetter__", "__lookupGetter__", "__lookupSetter__"
  }

  /** A JavaScript value `urlDatabase[key]` can produce. */
  datatype JsValue = Undefined | Str(s: string) | InheritedMember(name: string)

  /** `urlDatabase[key]`: an own property first, then the prototype chain. */
  function PropertyGet(db: map<string, string>, key: string): JsValue {
    if key in db then Str(db[key])
    else if key in ObjectPrototypeMembers then InheritedMember(key)
    else Undefined
  }

  /** JavaScript truthiness of such a value; inherited members are functions or objects. */
  predicate Truthy(v: JsValue) {
    match v
    case Undefined => false
    case Str(s) => s != ""
    case InheritedMember(_) => true
  }

  datatype RawResolveResponse = RedirectTo(location: JsValue) | Status404

  /** `GET /:shortId` exactly as written: `if (originalUrl) res.redirect(originalUrl) else 404`. */
  function ResolveAsWritten(db: map<string, string>, id: string): (r: RawResolveResponse)
    ensures id in db && db[id] != "" ==> r == RedirectTo(Str(db[id]))
    ensures id !in db && id !in ObjectPrototypeMembers ==> r == Status404
    ensures r.RedirectTo? && id !in db ==> id in ObjectPrototypeMembers && r.location == InheritedMember(id)
  {
    var v := PropertyGet(db, id);
    if Truthy(v) then RedirectTo(v) else Status404
  }

  /** GET /constructor (or /toString, ...) is redirected although no such id was ever stored. */
  lemma PrototypeNamesAreRedirected(db: map<string, string>, name: string)
    requires ValidDatabase(db) && name in ObjectPrototypeMembers
    ensures name !in db && Lookup(db, name) == NotFound
    ensures ResolveAsWritten(db, name) == RedirectTo(InheritedMember(name))
  {
    assert |name| != ShortIdLength;
  }

  /** The shortener never writes a prototype name: none of them is five characters long. */
  lemma PrototypeNamesAreNotShortIds(name: string)
    requires name in ObjectPrototypeMembers
    ensures !IsShortId(name)
  {
  }

  /** Away from the prototype names, the lookup as written and the corrected Lookup agree. */
  lemma ResolveAsWrittenAgreesElsewhere(db: map<string, string>, id: string)
    requires ValidDatabase(db) && id !in ObjectPrototypeMembers
    ensures Lookup(db, id) == NotFound <==> ResolveAsWritten(db, id) == Status404
    ensures forall t :: Lookup(db, id) == Redirect(t) <==> ResolveAsWritten(db, id) == RedirectTo(Str(t))
  {
    if id in db {
      assert HasHttpScheme(db[id]);
    }
  }

  // ---------------------------------------------------------------------------

  /** The server's `urlDatabase` object and its two handlers. */
  class UrlDatabase {
    var entries: map<string, string>

    ghost predicate Valid()
      reads this
    {
      ValidDatabase(entries)
    }

    /** `const urlDatabase = {}` */
    constructor ()
      ensures Valid() && entries == map[]
    {
      entries := map[];
    }

    /** `POST /shorten`; `id` is the value `nanoid(5)` returned. */
    method Shorten(originalUrl: Option<string>, id: string) returns (response: ShortenResponse)
      requires Valid() && IsShortId(id)
      modifies this
      ensures Valid()
      ensures (entries, response) == ShortenStep(old(entries), originalUrl, id)
    {
      if originalUrl.None? || originalUrl.value == "" {
        return MissingUrl;
      }
      var url := originalUrl.value;
      if !HasHttpScheme(url) {
        url := "http://" + url;
      }
      entries := entries[id := url];
      response := Shortened(ShortUrlPrefix + id);
    }

    /** `GET /:shortId`; it never changes the database. */
    method Resolve(id: string) returns (response: ResolveResponse)
      requires Valid()
      ensures response == Lookup(entries, id)
      ensures response.Redirect? ==> HasHttpScheme(response.target)
    {
      if id in entries {
        response := Redirect(entries[id]);
      } else {
        response := NotFound;
      }
    }
  }

  /** A client of the two handlers: shorten a URL, then follow the short URL. */
  method ShortenThenFollow(db: UrlDatabase, url: string, id: string) returns (response: ResolveResponse)
    requires db.Valid() && IsShortId(id) && url != ""
    modifies db
    ensures db.Valid()
    ensures response == Redirect(Normalize(url))
    ensures forall k :: k != id ==> Lookup(db.entries, k) == Lookup(old(db.entries), k)
  {
    var created := db.Shorten(Some(url), id);
    ShortUrlRoundTrip(id);
    var followed := ShortIdOf(created.shortUrl).value;
    response := db.Resolve(followed);
  }
}
