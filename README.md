# URL shortener backend: a Dafny model

This project models the backend short-link logic of a small URL shortener:

- **The in-memory shortener** (`Backend/server.js`). `POST /shorten` rejects a missing URL with 400 "Missing URL". If the URL has no `http://` or `https://` scheme (in any letter case), it prepends `http://`. It stores the URL in the `urlDatabase` object under a five-character `nanoid` id and answers with `http://localhost:8080/<id>`. `GET /:shortId` redirects to the stored URL or answers 404 "URL not found". Module `Shortener` holds this. The pure functions `Normalize`, `ShortenStep` and `Lookup` specify the handlers. The class `UrlDatabase` keeps a `map<string, string>` field that its `Shorten` and `Resolve` methods read and update.
- **The URL syntax check** (`Backend/utils/validateUrl.js`), in module `UrlValidation`. It is the anchored, case-sensitive pattern `^(ftp|http|https)://[^ "]+$`, written as a predicate on strings. It is proved equal to a declarative reading: a scheme, then `://`, then a non-empty tail with no space and no double quote.
- **The short-link record** (`Backend/Schemas/MongoDB.js`), in module `UrlSchema`. It covers the click-event and record shapes, the field defaults, the required `originalUrl`/`shortId`, and the unique `shortId` index over a collection modelled as a sequence of records. It also covers the TTL rule on `expiresAt`: with `expireAfterSeconds: 0` a record may be deleted from the instant `expiresAt` on, and a record without `expiresAt` never expires.
- **Cross-checks** (module `SchemeChecks`). These relate the shortener's normalisation to `validateUrl`. The two disagree on letter case and on `ftp`.

`wrappers.dfy` holds the `Option` and `Result` types the other modules use.

The shortener never calls `validateUrl`, and it does not use the Mongo schema: `server.js` keeps its links in memory. Richer behaviour is also absent from these three files: deduplication, passwords, the active/expired checks on redirect, click counting and the analytics query. The model follows the code, so none of that is modelled.

## Model

| member | source | states |
|---|---|---|
| `UrlValidation.ValidateUrl` | Backend/utils/validateUrl.js:1-4 | an accepted URL is non-empty, starts with lower-case `f` or `h`, and contains no space and no `"` anywhere |
| `UrlValidation.ValidateUrlMatchesPattern` | Backend/utils/validateUrl.js:1-4 | validateUrl accepts a string exactly when it is `ftp`, `http` or `https`, then `://`, then a non-empty tail without space or `"` (both directions) |
| `UrlValidation.AcceptsSchemeAndTail` | Backend/utils/validateUrl.js:2-3 | every lower-case scheme followed by `://` and a valid tail is accepted |
| `UrlValidation.RejectsSpaceOrQuote` | Backend/utils/validateUrl.js:2 | a space or a double quote at any position makes validateUrl false |
| `UrlValidation.NeedsLowerCaseScheme` | Backend/utils/validateUrl.js:2 | an input that is empty or does not start with lower-case `f` or `h` is rejected (the match is case-sensitive: `HTTP://x`, `example.com`, `mailto:x` fail) |
| `UrlValidation.RejectsBareScheme` | Backend/utils/validateUrl.js:2 | `ftp://`, `http://` and `https://` with nothing after them are rejected |
| `UrlValidation.AcceptExamples` | Backend/utils/validateUrl.js:2-3 | `http://example.com` and `ftp://x` are accepted |
| `UrlValidation.RejectExamples` | Backend/utils/validateUrl.js:2-3 | `HTTP://example.com`, `example.com` and `mailto:x` are rejected |
| `UrlValidation.RejectsEmbeddedSpace` | Backend/utils/validateUrl.js:2 | `http://a b` is rejected |
| `Shortener.HasHttpScheme` | Backend/server.js:25 | the case-insensitive test `^https?://`: when it holds, the input starts with `http` in any case, followed by `://` or by one more character and `://` |
| `Shortener.Normalize` | Backend/server.js:25-27 | the stored URL always has an `http://`/`https://` scheme (case-insensitive), and it is either the input unchanged or exactly `http://` followed by the input |
| `Shortener.NormalizeFixesSchemedUrls` | Backend/server.js:25-27 | the URL is stored unchanged exactly when it already matches `^https?://` in any case |
| `Shortener.NormalizeIdempotent` | Backend/server.js:25-27 | normalising a normalised URL changes nothing |
| `Shortener.NormalizeKeepsUpperCaseScheme` | Backend/server.js:25 | `HTTP://...` counts as already having a scheme (the `i` flag) |
| `Shortener.NormalizeAddsScheme` | Backend/server.js:26 | `example.com` is stored as `http://example.com` |
| `Shortener.ShortUrl` | Backend/server.js:31 | the short URL is `http://localhost:8080/` followed by the id |
| `Shortener.ShortUrlRoundTrip` | Backend/server.js:31-35 | the `:shortId` route parameter of a returned short URL is the id it was built from |
| `Shortener.ShortUrlInjective` | Backend/server.js:31 | distinct ids give distinct short URLs |
| `Shortener.ShortenStep` | Backend/server.js:19-32 | shorten answers Missing URL exactly when the URL is absent or empty, and then leaves the map unchanged; otherwise the map gains key `id` holding the normalised URL, every other key keeps its value, and the short URL's route parameter is `id` |
| `Shortener.Lookup` | Backend/server.js:34-42 | resolve answers not found exactly when the id is not stored, and otherwise redirects to the stored URL |
| `Shortener.MissingUrlChangesNothing` | Backend/server.js:20-23 | an absent, null or empty `originalUrl` gives 400 Missing URL and leaves the database as it was |
| `Shortener.ShortenThenResolve` | Backend/server.js:19-42 | after shortening `u` under `k`, resolving `k` redirects to the normalised `u` |
| `Shortener.ShortenWritesOnlyId` | Backend/server.js:30 | shorten changes no key other than the new id; an existing entry under that id is overwritten |
| `Shortener.ShortenResponseNamesId` | Backend/server.js:29-31 | a successful shorten answers 200 with a short URL of prefix length + 5 whose route parameter is the id |
| `Shortener.ShortenPreservesValid` | Backend/server.js:25-30 | every key stays a 5-character nanoid id and every stored value keeps an http(s) scheme |
| `Shortener.RedirectTargetsHaveScheme` | Backend/server.js:36-38 | every redirect goes to a URL with an http(s) scheme |
| `Shortener.ResolveAsWritten` | Backend/server.js:36-41 | the handler as written: a stored non-empty URL is redirected to; an id that is neither stored nor an Object.prototype name gets 404; and a redirect of an unstored id happens only for a prototype name, whose inherited member becomes the target |
| `Shortener.PrototypeNamesAreRedirected` | Backend/server.js:36-38 | as written, an id such as `constructor` that was never stored is redirected (to an inherited Object.prototype member) instead of answering 404 |
| `Shortener.PrototypeNamesAreNotShortIds` | Backend/server.js:29-30 | no Object.prototype member name is five characters long, so shorten never writes one |
| `Shortener.ResolveAsWrittenAgreesElsewhere` | Backend/server.js:36-41 | for every other id, the lookup as written and the corrected `Lookup` give the same answer |
| `Shortener.UrlDatabase.constructor` | Backend/server.js:10 | the database starts empty |
| `Shortener.UrlDatabase.Shorten` | Backend/server.js:19-32 | the new map and response are those of `ShortenStep` on the old map, and the database invariant is kept |
| `Shortener.UrlDatabase.Resolve` | Backend/server.js:34-42 | the response is `Lookup` of the current map, every redirect has an http(s) scheme, and nothing is modified |
| `Shortener.ShortenThenFollow` | Backend/server.js:19-42 | calling the two handlers in turn on the returned short URL redirects to the normalised URL and changes no other key |
| `UrlSchema.NewClickEvent` | Backend/Schemas/MongoDB.js:6-16 | an event's time defaults to the creation instant, and its other fields are kept as given |
| `UrlSchema.MissingPaths` | Backend/Schemas/MongoDB.js:20-27 | the validation error names `originalUrl` or `shortId` exactly when that field is absent or empty |
| `UrlSchema.NewRecord` | Backend/Schemas/MongoDB.js:18-72 | a record is built exactly when both required fields are present, and they are kept as given; otherwise the result is a validation error naming the missing paths. Each optional field is kept when given and otherwise defaults: `createdAt` to now, `expiresAt` to null, `isActive` and `analyticsEnabled` to true, `clickCount` to 0, `events` to empty |
| `UrlSchema.FreshRecordDefaults` | Backend/Schemas/MongoDB.js:31-69 | a record given only its required fields has `createdAt` = now, `expiresAt` = null, `isActive` and `analyticsEnabled` true, `clickCount` 0 and no events |
| `UrlSchema.RequiredFieldsEnforced` | Backend/Schemas/MongoDB.js:20-27 | building without `originalUrl` or with an empty `shortId` fails and names the field |
| `UrlSchema.Expired` | Backend/Schemas/MongoDB.js:74-78 | with `expireAfterSeconds: 0`, a record is expired exactly when it has an `expiresAt` and `now >= expiresAt` |
| `UrlSchema.ExpiresExactlyAtDeadline` | Backend/Schemas/MongoDB.js:74-78 | a record is expired exactly when `now >= expiresAt`; one without `expiresAt` never is |
| `UrlSchema.ExpiryIsPermanent` | Backend/Schemas/MongoDB.js:74-78 | an expired record stays expired at every later instant |
| `UrlSchema.DefaultRecordNeverExpires` | Backend/Schemas/MongoDB.js:42-45 | any record created without an `expiresAt` gets null there and is never expired |
| `UrlSchema.UniqueShortIds` | Backend/Schemas/MongoDB.js:24-29 | the unique index's invariant: no two records share a `shortId`, so there are as many distinct ids as records |
| `UrlSchema.DistinctIdsCount` | Backend/Schemas/MongoDB.js:27 | records with pairwise distinct `shortId` values have exactly as many distinct ids as there are records |
| `UrlSchema.FindByShortId` | Backend/Schemas/MongoDB.js:24-29 | a lookup by id returns a stored record with that id, and finds none exactly when no record has it |
| `UrlSchema.Insert` | Backend/Schemas/MongoDB.js:24-29 | an insert fails with a duplicate-key error, leaving the store unchanged, exactly when the `shortId` is taken; otherwise it appends the record |
| `UrlSchema.InsertPreservesUnique` | Backend/Schemas/MongoDB.js:24-29 | no two records share a `shortId` after an insert if none did before |
| `UrlSchema.FindInUniqueStore` | Backend/Schemas/MongoDB.js:24-29 | in a unique store every record is what a lookup by its own id returns |
| `UrlSchema.InsertThenFind` | Backend/Schemas/MongoDB.js:24-29 | after a successful insert, a lookup by the new id returns the new record |
| `UrlSchema.PurgeExpired` | Backend/Schemas/MongoDB.js:74-78 | after the TTL deletion at `now`, the collection holds exactly the records that are not expired |
| `UrlSchema.PurgePreservesUnique` | Backend/Schemas/MongoDB.js:74-78 | TTL deletion keeps `shortId` unique |
| `UrlSchema.PurgeKeepsUnexpiring` | Backend/Schemas/MongoDB.js:76 | records without `expiresAt` survive every TTL deletion |
| `SchemeChecks.UpperCaseSchemeDisagreement` | Backend/server.js:25-27 | the shortener stores `HTTP://...` unchanged, and validateUrl rejects that stored value |
| `SchemeChecks.ValidHttpUrlStoredUnchanged` | Backend/utils/validateUrl.js:2 | a URL that passes validateUrl with an `http` or `https` scheme is stored unchanged by the shortener |
| `SchemeChecks.FtpUrlGetsHttpPrefix` | Backend/server.js:25-27 | a valid `ftp://` URL is not seen as schemed: it is stored as `http://ftp://...`, which still passes validateUrl |
| `SchemeChecks.PrefixedUrlValidIff` | Backend/server.js:26 | `http://` + `u` passes validateUrl exactly when `u` is a non-empty string without space or `"` |

## Findings

| source | as written | input that shows it | evidently intended | confidence | as-written member | corrected member |
|---|---|---|---|---|---|---|
| Backend/server.js:36-40 | `urlDatabase` is a plain object `{}`, so `urlDatabase[shortId]` also reads members inherited from Object.prototype. These are functions or objects, so they are truthy, and the handler calls `res.redirect` with them | `GET /constructor` (likewise `/toString`, `/valueOf`, `/__proto__`, ...) on any database | 404 "URL not found" for every id that was never stored | medium; not executed | `Shortener.ResolveAsWritten`, exhibited by `Shortener.PrototypeNamesAreRedirected` | `Shortener.Lookup`, used by `Shortener.UrlDatabase.Resolve`, proved by its own contract and by `Shortener.ResolveAsWrittenAgreesElsewhere` |

## Left out

- Express plumbing is not modelled: `cors`, JSON body parsing, `app.listen`, the `'Hello World'` route, and how `res.status`, `res.send`, `res.json` and `res.redirect` write the response. The handlers return their decision as a value with a status code.
- `nanoid(5)` randomness is not modelled. The id is a parameter, and the precondition says it is what nanoid returns: 5 characters from `A-Za-z0-9_-`. The model does not cover collision probability. A colliding id simply overwrites the old entry, as the code does.
- A non-string `originalUrl` in the JSON body (a number, a boolean, an array, an object) is not modelled. JavaScript would coerce it to a string. The model takes `Option<string>`, where absent or null is `None`.
- `Shortener.UrlDatabase.Resolve`: it redirects only for stored ids, which is the corrected behaviour. The code as written also redirects prototype member names. `Shortener.ResolveAsWritten` models that separately (see Findings).
- `Date.now` is not modelled as a clock. Every timestamp is an integer parameter, taken as epoch milliseconds.
- Mongoose and MongoDB internals are not modelled: persistence, casting values to the declared types, the query language, and when the background TTL monitor actually runs. `UrlSchema.PurgeExpired` gives the collection's contents after a deletion pass at a given instant.
- Passing an explicit `null` for a field whose default is not null (`isActive`, `analyticsEnabled`, `clickCount`, `events`, `createdAt`) is not modelled. Mongoose would store the null. In the model a field is either given a value or left out.
- `clickCount` is a JavaScript `Number`; the model uses an unbounded integer, and nothing in these files changes it after creation.
- The React frontend is not part of this model. That includes its own `startsWith('https')` check before posting, which is client-side validation.
